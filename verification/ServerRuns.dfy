/** What holds in every schedule of requests, worker turns, store failures and shutdown. */
module ServerRuns {
  import opened Wrappers
  import opened RunControl
  import opened RunAwaits
  import opened EventQueue
  import opened ServerProtocol
  import opened ServerInvariants

  // ---- What a step changes ----

  /** Steps about one run that leave the queue alone. */
  predicate Touches(s: Server, step: Step) {
    || step.DoPause? || step.DoResume? || step.DoCancel? || step.DoSetMoveDelay?
    || step.DoGoOn? || step.DoRaiseError?
    || (step.DoInterrupt? && s.worker.Executing?)
  }

  function Subject(s: Server, step: Step): RunId
    requires Touches(s, step) && Enabled(s, step)
  {
    match step
    case DoPause(id, _) => id
    case DoResume(id, _) => id
    case DoCancel(id, _) => id
    case DoSetMoveDelay(id, _) => id
    case _ => s.worker.run
  }

  /** Such a step changes at most the record of that run, and only in ways its state allows. */
  lemma TouchEffect(s: Server, step: Step)
    requires Enabled(s, step) && Touches(s, step) && OneActive(s.runs, s.worker)
    ensures
      var t, id := Next(s, step), Subject(s, step);
      && t.line == s.line
      && (id !in s.runs ==> t == s)
      && (id in s.runs ==>
            && id in t.runs && t.runs == s.runs[id := t.runs[id]]
            && MayBecome(s.runs[id].state, t.runs[id].state))
  {
    if step.DoGoOn? && Onward(s, step.wake).Returns? {
      var id := s.worker.run;
      assert s.runs[id := s.runs[id].(state := Completed)][id := s.runs[id].(state := Failed, error := true)]
          == s.runs[id := s.runs[id].(state := Failed, error := true)];
    }
  }

  lemma StartEffect(s: Server, step: Step)
    requires Enabled(s, step) && step.DoStartNext?
    ensures
      var t, id := Next(s, step), s.line.queue[0];
      if s.State(id) == Cancelled then t == s.(line := Take(s.line))
      else
        && t.line == Take(s.line).(started := s.line.started + [id])
        && id in t.runs && t.runs == s.runs[id := t.runs[id]] && t.runs[id].state in {Running, Failed}
  {
    var id := s.line.queue[0];
    assert s.runs[id := s.runs[id].(state := Running)][id := s.runs[id].(state := Failed, error := true)]
        == s.runs[id := s.runs[id].(state := Failed, error := true)];
  }

  lemma DrainEffect(s: Server, step: Step)
    requires Enabled(s, step) && step.DoDrainNext?
    ensures
      var t, id := Next(s, step), s.line.queue[0];
      && t.line == Take(s.line)
      && id in t.runs && t.runs == s.runs[id := t.runs[id]] && t.runs[id].state == Cancelled
  {
    var id := s.line.queue[0];
    assert s.State(id) == Cancelled ==> s.runs == s.runs[id := s.runs[id]];
  }

  lemma OtherEffect(s: Server, step: Step)
    requires Enabled(s, step) && !Touches(s, step) && !step.DoSubmit? && !step.DoStartNext? && !step.DoDrainNext?
    ensures Next(s, step).line == s.line && Next(s, step).runs == s.runs
    ensures Next(s, step).books == s.books.(events := Next(s, step).books.events)
  {
  }

  // ---- The queue and the order of starts ----

  lemma LineKept(s: Server, step: Step)
    requires Enabled(s, step) && LineOk(s.line, s.runs) && OneActive(s.runs, s.worker)
    ensures LineOk(Next(s, step).line, Next(s, step).runs)
  {
    var t := Next(s, step);
    if Touches(s, step) {
      TouchEffect(s, step);
      var id := Subject(s, step);
      if id in s.runs {
        TouchLine(s.line, s.runs, id, t.runs[id]);
      }
    } else if step.DoSubmit? {
      if step.ok {
        SubmitLine(s.line, s.runs, step.id, t.runs[step.id]);
      }
    } else if step.DoStartNext? {
      StartEffect(s, step);
      var id := s.line.queue[0];
      if s.State(id) == Cancelled {
        SkipLine(s.line, s.runs);
      } else {
        StartLine(s.line, s.runs, t.runs[id]);
      }
    } else if step.DoDrainNext? {
      DrainEffect(s, step);
      assert s.line.queue[0] in s.line.queue;
      TouchLine(s.line, s.runs, s.line.queue[0], t.runs[s.line.queue[0]]);
      SkipLine(s.line, t.runs);
    } else {
      OtherEffect(s, step);
    }
  }

  // ---- Store and events ----

  /** A failed store call followed by another one leaves what the second alone would leave. */
  lemma RetryIsWriteEnd(b: Books, id: RunId, state: RunState, run: Run, ok: bool)
    ensures WriteEnd(Write(b, id, state, false), id, run, ok) == WriteEnd(b, id, run, ok)
  {
    assert b.unsaved + {id} - {id} == b.unsaved - {id};
    assert b.unsaved + {id} + {id} == b.unsaved + {id};
  }

  /** How the books of `s` follow one run's new record. */
  ghost predicate BooksFollow(s: Server, t: Server, id: RunId)
    requires id in s.runs && id in t.runs
  {
    var ok, before, after := id !in t.books.unsaved, s.runs[id].state, t.runs[id].state;
    if after == before then t.books == s.books
    else
      && !Terminal(before)
      && (if Terminal(after) then t.books == WriteEnd(s.books, id, t.runs[id], ok)
          else s.phase == Serving && t.books == Write(s.books, id, after, ok))
  }

  lemma RequestBooks(s: Server, step: Step)
    requires Enabled(s, step) && (step.DoPause? || step.DoResume? || step.DoCancel? || step.DoSetMoveDelay?)
    requires step.id in s.runs
    ensures step.id in Next(s, step).runs && BooksFollow(s, Next(s, step), step.id)
  {
  }

  lemma EndBooks(s: Server, step: Step)
    requires Enabled(s, step) && OneActive(s.runs, s.worker) && s.worker.Executing?
    requires step.DoGoOn? || step.DoRaiseError? || step.DoInterrupt?
    ensures s.worker.run in Next(s, step).runs && BooksFollow(s, Next(s, step), s.worker.run)
  {
    if step.DoGoOn? && Onward(s, step.wake).Returns? && !step.ok {
      var id := s.worker.run;
      RetryIsWriteEnd(s.books, id, Completed, Next(s, step).runs[id], step.finishOk);
    }
  }

  lemma StartBooks(s: Server, step: Step)
    requires Enabled(s, step) && step.DoStartNext? && Waiting(s.line, s.runs)
    ensures
      var t, id := Next(s, step), s.line.queue[0];
      id in t.runs && BooksFollow(s, t, id)
  {
    var id := s.line.queue[0];
    assert id in s.line.queue;
    if s.State(id) != Cancelled && !step.ok {
      RetryIsWriteEnd(s.books, id, Running, Next(s, step).runs[id], step.finishOk);
    }
  }

  lemma TouchBlames(s: Server, step: Step)
    requires Enabled(s, step) && Touches(s, step) && OneActive(s.runs, s.worker)
    requires Subject(s, step) in s.runs && Blamed(s.runs[Subject(s, step)])
    ensures Subject(s, step) in Next(s, step).runs && Blamed(Next(s, step).runs[Subject(s, step)])
  {
  }

  lemma StartBlames(s: Server, step: Step)
    requires Enabled(s, step) && step.DoStartNext? && Waiting(s.line, s.runs) && Blamed(s.runs[s.line.queue[0]])
    ensures s.line.queue[0] in Next(s, step).runs && Blamed(Next(s, step).runs[s.line.queue[0]])
  {
    assert s.line.queue[0] in s.line.queue;
  }

  lemma FollowKeepsBooks(s: Server, t: Server, id: RunId)
    requires BooksOk(s.runs, s.books) && Open(s.books.events) && Saved(s)
    requires id in s.runs && id in t.runs && t.runs == s.runs[id := t.runs[id]] && BooksFollow(s, t, id)
    requires Blamed(t.runs[id])
    ensures BooksOk(t.runs, t.books) && Open(t.books.events)
  {
    var ok, run := id !in t.books.unsaved, t.runs[id];
    if run.state == s.runs[id].state {
      TouchBooks(s.runs, s.books, id, run);
    } else if Terminal(run.state) {
      FinishBooks(s.runs, s.books, id, run, ok);
    } else {
      MarkBooks(s.runs, s.books, id, run, ok);
    }
  }

  lemma DrainBooks(s: Server, step: Step)
    requires Enabled(s, step) && step.DoDrainNext? && Waiting(s.line, s.runs)
    requires BooksOk(s.runs, s.books) && Open(s.books.events)
    requires AllSteady(s.runs)
    ensures
      var t := Next(s, step);
      BooksOk(t.runs, t.books) && if t.phase == Aborted then Closing(t.books.events) else Open(t.books.events)
  {
    var id := s.line.queue[0];
    assert id in s.line.queue;
    if s.State(id) != Cancelled {
      var u := Finish(s, id, s.runs[id].(state := Cancelled), step.ok);
      FinishBooks(s.runs, s.books, id, u.runs[id], step.ok);
      CloseLosesNothing(u.books.events);
    }
  }

  predicate IsRequest(step: Step) {
    step.DoPause? || step.DoResume? || step.DoCancel? || step.DoSetMoveDelay?
  }

  lemma TouchKeepsBooks(s: Server, step: Step)
    requires Enabled(s, step) && Touches(s, step) && OneActive(s.runs, s.worker)
    requires BooksOk(s.runs, s.books) && Saved(s) && Open(s.books.events)
    requires AllSteady(s.runs)
    ensures BooksOk(Next(s, step).runs, Next(s, step).books) && Open(Next(s, step).books.events)
  {
    TouchEffect(s, step);
    if Subject(s, step) in s.runs {
      if IsRequest(step) {
        RequestBooks(s, step);
      } else {
        EndBooks(s, step);
      }
      TouchBlames(s, step);
      FollowKeepsBooks(s, Next(s, step), Subject(s, step));
    }
  }

  lemma StartKeepsBooks(s: Server, step: Step)
    requires Enabled(s, step) && step.DoStartNext? && Waiting(s.line, s.runs)
    requires BooksOk(s.runs, s.books) && Saved(s) && Open(s.books.events)
    requires AllSteady(s.runs)
    ensures BooksOk(Next(s, step).runs, Next(s, step).books) && Open(Next(s, step).books.events)
  {
    StartEffect(s, step);
    if s.State(s.line.queue[0]) != Cancelled {
      StartBooks(s, step);
      StartBlames(s, step);
      FollowKeepsBooks(s, Next(s, step), s.line.queue[0]);
    }
  }

  lemma OtherKeepsBooks(s: Server, step: Step)
    requires Enabled(s, step) && !Touches(s, step) && !step.DoStartNext? && !step.DoDrainNext?
    requires BooksOk(s.runs, s.books) && Publishing(s)
    ensures BooksOk(Next(s, step).runs, Next(s, step).books) && Publishing(Next(s, step))
  {
    if step.DoSubmit? {
      SubmitBooks(s.runs, s.books, step.id, Run(Queued, false, NEW_CONTROL, step.config, []));
    } else if step.DoPublish? {
      PumpLosesNothing(s.books.events);
    } else if step.DoDrained? {
      CloseLosesNothing(s.books.events);
    }
  }

  lemma PhaseEffect(s: Server, step: Step)
    requires Enabled(s, step)
    ensures Touches(s, step) || step.DoStartNext? ==>
              && (s.phase == Serving || s.phase == Stopping)
              && Next(s, step).phase in {Serving, Stopping, Draining}
    ensures step.DoDrainNext? ==> s.phase == Draining && Next(s, step).phase in {Draining, Aborted}
  {
  }

  /** The books stay right, and the publisher is open exactly until the end. */
  lemma BooksKept(s: Server, step: Step)
    requires Enabled(s, step) && Waiting(s.line, s.runs) && OneActive(s.runs, s.worker)
    requires BooksOk(s.runs, s.books) && Saved(s) && Publishing(s)
    requires AllSteady(s.runs)
    ensures BooksOk(Next(s, step).runs, Next(s, step).books) && Publishing(Next(s, step))
  {
    PhaseEffect(s, step);
    if Touches(s, step) {
      TouchKeepsBooks(s, step);
    } else if step.DoStartNext? {
      StartKeepsBooks(s, step);
    } else if step.DoDrainNext? {
      DrainBooks(s, step);
    } else {
      OtherKeepsBooks(s, step);
    }
  }

  // ---- The worker and the controls ----

  /** One run's record and the worker after a step about that run. */
  predicate WorkerFollows(s: Server, t: Server, id: RunId) {
    && id in t.runs && Steady(t.runs[id])
    && (Active(t.runs[id].state) <==> t.worker == Executing(id))
    && (t.worker == s.worker || s.worker == Executing(id))
    && (t.worker.Executing? ==> t.worker == s.worker)
  }

  lemma GoOnWorker(s: Server, step: Step)
    requires Enabled(s, step) && step.DoGoOn? && OneActive(s.runs, s.worker) && Steady(s.runs[s.worker.run])
    ensures WorkerFollows(s, Next(s, step), s.worker.run)
  {
    var run := s.runs[s.worker.run];
    ResumedLeavesFlags(s.at, run.control, run.config.epochs, step.wake);
  }

  lemma TouchWorker(s: Server, step: Step)
    requires Enabled(s, step) && Touches(s, step) && OneActive(s.runs, s.worker)
    requires Subject(s, step) in s.runs && Steady(s.runs[Subject(s, step)])
    ensures WorkerFollows(s, Next(s, step), Subject(s, step))
  {
    if step.DoGoOn? {
      GoOnWorker(s, step);
    }
  }

  lemma StartWorker(s: Server, step: Step)
    requires Enabled(s, step) && step.DoStartNext? && Waiting(s.line, s.runs)
    requires Steady(s.runs[s.line.queue[0]])
    ensures
      var t, id := Next(s, step), s.line.queue[0];
      if s.State(id) == Cancelled then t.worker == s.worker
      else
        && id in t.runs && Steady(t.runs[id])
        && (if Active(t.runs[id].state) then t.worker == Executing(id) else !t.worker.Executing?)
  {
    assert s.line.queue[0] in s.line.queue;
  }

  lemma FlowKept(s: Server, step: Step)
    requires Enabled(s, step) && Waiting(s.line, s.runs) && FlowOk(s.runs, s.worker) && Staffed(s)
    ensures FlowOk(Next(s, step).runs, Next(s, step).worker)
  {
    var t := Next(s, step);
    if Touches(s, step) {
      TouchEffect(s, step);
      var id := Subject(s, step);
      if id in s.runs {
        TouchWorker(s, step);
        TouchFlow(s.runs, s.worker, id, t.runs[id], t.worker);
      }
    } else if step.DoStartNext? {
      StartEffect(s, step);
      StartWorker(s, step);
      var id := s.line.queue[0];
      if s.State(id) != Cancelled {
        TouchFlow(s.runs, s.worker, id, t.runs[id], t.worker);
      }
    } else if step.DoDrainNext? {
      DrainEffect(s, step);
      var id := s.line.queue[0];
      TouchFlow(s.runs, s.worker, id, t.runs[id], Gone);
    } else if step.DoSubmit? {
      if step.ok {
        TouchFlow(s.runs, s.worker, step.id, t.runs[step.id], s.worker);
      }
    } else {
      OtherEffect(s, step);
    }
  }

  // ---- The phases ----

  lemma StaffedKept(s: Server, step: Step)
    requires Enabled(s, step) && Staffed(s)
    ensures Staffed(Next(s, step))
  {
  }

  /** No step takes a run out of a terminal state, or out of the books. */
  lemma TerminalStays(s: Server, step: Step, id: RunId)
    requires Enabled(s, step) && Waiting(s.line, s.runs) && OneActive(s.runs, s.worker) && id in s.runs
    ensures id in Next(s, step).runs
    ensures Terminal(s.runs[id].state) ==> Next(s, step).runs[id].state == s.runs[id].state
  {
    if Touches(s, step) {
      TouchEffect(s, step);
    } else if step.DoStartNext? {
      StartEffect(s, step);
      assert s.line.queue[0] in s.line.queue;
    } else if step.DoDrainNext? {
      DrainEffect(s, step);
      assert s.line.queue[0] in s.line.queue;
    } else if !step.DoSubmit? {
      OtherEffect(s, step);
    }
  }

  /** A failed store call about a run that goes on stops the service. */
  lemma UnsavedEffect(s: Server, step: Step, id: RunId)
    requires Enabled(s, step) && OneActive(s.runs, s.worker)
    requires s.phase == Serving && Next(s, step).phase == Serving
    requires id in Next(s, step).books.unsaved && id in Next(s, step).runs
    ensures id in s.books.unsaved || Terminal(Next(s, step).runs[id].state)
  {
  }

  lemma SavedKept(s: Server, step: Step)
    requires Enabled(s, step) && Waiting(s.line, s.runs) && OneActive(s.runs, s.worker)
    requires Saved(s) && Booked(s.runs, s.books)
    ensures Saved(Next(s, step))
  {
    var t := Next(s, step);
    if t.phase == Serving {
      forall id | id in t.runs ensures Terminal(t.runs[id].state) || id !in t.books.unsaved {
        if id in t.books.unsaved {
          UnsavedEffect(s, step, id);
          if id in s.books.unsaved {
            TerminalStays(s, step, id);
          }
        }
      }
    }
  }

  /** A failed store call either stops the service or ends the worker, unless the run's end is stored after all. */
  lemma UpToDateKept(s: Server, step: Step)
    requires Enabled(s, step) && UpToDate(s)
    ensures UpToDate(Next(s, step))
  {
  }

  // ---- Where the executed run stands ----

  lemma PlacedKept(s: Server, step: Step)
    requires Enabled(s, step) && Placed(s) && Waiting(s.line, s.runs) && FlowOk(s.runs, s.worker)
    ensures Placed(Next(s, step))
  {
    if s.worker.Executing? {
      var run := s.runs[s.worker.run];
      match step
      case DoGoOn(wake, _, _) => ResumedStaysPlaced(s.at, run.control, run.config, wake);
      case DoPause(_, _) => OperateStaysPlaced(s.at, run.control, run.config, Operation.Pause);
      case DoResume(_, _) => OperateStaysPlaced(s.at, run.control, run.config, Operation.Resume);
      case DoCancel(_, _) => OperateStaysPlaced(s.at, run.control, run.config, Operation.Cancel);
      case DoSetMoveDelay(_, ms) => OperateStaysPlaced(s.at, run.control, run.config, SetMoveDelay(ms));
      case _ =>
    }
  }

  // ---- The games of a run ----

  lemma CountedKept(s: Server, step: Step)
    requires Enabled(s, step) && Counted(s) && Placed(s) && Waiting(s.line, s.runs) && OneActive(s.runs, s.worker)
    requires AllTold(s.runs)
    ensures Counted(Next(s, step))
  {
    if step.DoGoOn? {
      var run := s.runs[s.worker.run];
      ResumedRecords(s.at, run.control, run.config, step.wake);
    } else if step.DoStartNext? {
      assert s.line.queue[0] in s.line.queue;
    }
  }

  /** A game that is over is the next one on record. */
  lemma RecordedGameFits(run: Run, at: Await)
    requires Finished(run.games, run.config) && WellPlaced(at, run.control, run.config)
    requires |run.games| == Recorded(at) && at.GameOver?
    ensures Finished(run.games + [at.log], run.config)
  {
    var games := run.games + [at.log];
    forall k | 0 <= k < |games| ensures OfEpisode(games[k], run.config, k + 1) && games[k].game.done {
      assert k < |run.games| ==> games[k] == run.games[k];
    }
  }

  lemma GoOnTold(s: Server, step: Step)
    requires Enabled(s, step) && step.DoGoOn? && Placed(s) && Counted(s) && OneActive(s.runs, s.worker)
    requires Steady(s.runs[s.worker.run]) && Told(s.runs[s.worker.run])
    ensures s.worker.run in Next(s, step).runs && Told(Next(s, step).runs[s.worker.run])
  {
    var run := s.runs[s.worker.run];
    if s.at.GameOver? {
      RecordedGameFits(run, s.at);
    }
    ResumedStaysPlaced(s.at, run.control, run.config, step.wake);
  }

  lemma TouchTold(s: Server, step: Step)
    requires Enabled(s, step) && Touches(s, step) && !step.DoGoOn? && OneActive(s.runs, s.worker)
    requires Subject(s, step) in s.runs && Told(s.runs[Subject(s, step)])
    ensures Subject(s, step) in Next(s, step).runs && Told(Next(s, step).runs[Subject(s, step)])
  {
  }

  lemma StartTold(s: Server, step: Step)
    requires Enabled(s, step) && step.DoStartNext? && Told(s.runs[s.line.queue[0]])
    ensures s.line.queue[0] in Next(s, step).runs && Told(Next(s, step).runs[s.line.queue[0]])
  {
  }

  lemma DrainTold(s: Server, step: Step)
    requires Enabled(s, step) && step.DoDrainNext? && Told(s.runs[s.line.queue[0]])
    ensures s.line.queue[0] in Next(s, step).runs && Told(Next(s, step).runs[s.line.queue[0]])
  {
  }

  lemma ToldKept(s: Server, step: Step)
    requires Enabled(s, step) && Placed(s) && Counted(s) && FlowOk(s.runs, s.worker) && AllTold(s.runs)
    ensures AllTold(Next(s, step).runs)
  {
    if Touches(s, step) {
      TouchEffect(s, step);
      if step.DoGoOn? {
        GoOnTold(s, step);
      } else if Subject(s, step) in s.runs {
        TouchTold(s, step);
      }
    } else if step.DoStartNext? {
      StartEffect(s, step);
      StartTold(s, step);
    } else if step.DoDrainNext? {
      DrainEffect(s, step);
      DrainTold(s, step);
    } else if !step.DoSubmit? {
      OtherEffect(s, step);
    }
  }

  /** Every step, enabled by whatever schedule, keeps the invariant. */
  lemma InvariantKept(s: Server, step: Step)
    requires Enabled(s, step) && Invariant(s)
    ensures Invariant(Next(s, step))
  {
    LineKept(s, step);
    BooksKept(s, step);
    FlowKept(s, step);
    SavedKept(s, step);
    UpToDateKept(s, step);
    PlacedKept(s, step);
    CountedKept(s, step);
    ToldKept(s, step);
    StaffedKept(s, step);
  }

  lemma {:induction false} RunsKeepInvariant(s: Server, steps: seq<Step>)
    requires Invariant(s) && Legal(s, steps)
    ensures Invariant(After(s, steps))
    decreases |steps|
  {
    if steps != [] {
      InvariantKept(s, steps[0]);
      RunsKeepInvariant(Next(s, steps[0]), steps[1..]);
    }
  }

  /** From an empty server, in every interleaving of requests, worker turns, store failures and shutdown. */
  lemma EveryScheduleIsSafe(steps: seq<Step>)
    requires Legal(NEW_SERVER, steps)
    ensures Invariant(After(NEW_SERVER, steps))
  {
    StartsWell();
    RunsKeepInvariant(NEW_SERVER, steps);
  }
}
