/** The operator's controls of one run. */
module RunControl {
  import opened Wrappers

  const MAX_MOVE_DELAY_MS := 100
  const MOVE_DELAY_STEP_MS := 20

  /** The flags, and the event that every operation sets. */
  datatype Control = Control(paused: bool, cancelRequested: bool, moveDelay: int, changed: bool)

  const NEW_CONTROL := Control(false, false, 0, false)

  predicate ValidDelay(ms: int) {
    0 <= ms <= MAX_MOVE_DELAY_MS && ms % MOVE_DELAY_STEP_MS == 0
  }

  /** A value that is not an integer is written `None`. */
  datatype Operation = Pause | Resume | Cancel | SetMoveDelay(ms: Option<int>)

  predicate Refused(op: Operation) {
    op.SetMoveDelay? && (op.ms.None? || !ValidDelay(op.ms.value))
  }

  function Operate(c: Control, op: Operation): Control {
    if Refused(op) then c
    else
      match op
      case Pause => c.(paused := true, changed := true)
      case Resume => c.(paused := false, changed := true)
      case Cancel => c.(cancelRequested := true, changed := true)
      case SetMoveDelay(ms) => c.(moveDelay := ms.value, changed := true)
  }

  /** What each accepted operation leaves: its own flag or delay, the others as they were, and the event set. */
  lemma OperationsTakeEffect(c: Control, ms: int)
    ensures Operate(c, Pause) == Control(true, c.cancelRequested, c.moveDelay, true)
    ensures Operate(c, Resume) == Control(false, c.cancelRequested, c.moveDelay, true)
    ensures Operate(c, Cancel) == Control(c.paused, true, c.moveDelay, true)
    ensures Operate(c, SetMoveDelay(Some(ms)))
         == if ms in {0, 20, 40, 60, 80, 100} then Control(c.paused, c.cancelRequested, ms, true) else c
    ensures Operate(c, SetMoveDelay(None)) == c
  {
  }
}

/** The checkpoint coroutine that waits on the controls. */
module Checkpoints {
  import opened Wrappers
  import opened RunControl

  /** Where a checkpoint stands: about to read the flags, at one of its three awaits, or finished. */
  datatype Point = Top | Blocked | Delayed(delay: int) | Yielding | Returned | Raised

  datatype Checkpoint = Checkpoint(control: Control, point: Point, applyDelay: bool) {
    predicate Finished() {
      point == Returned || point == Raised
    }

    /** Suspended on the event, which nobody has set since. */
    predicate Asleep() {
      (point == Blocked || point.Delayed?) && !control.changed
    }
  }

  /** The loop body from its top to the next await: clear the event, then read the flags. */
  function ReadFlags(c: Control, applyDelay: bool): (Control, Point) {
    var cleared := c.(changed := false);
    if c.cancelRequested then (cleared, Raised)
    else if c.paused then (cleared, Blocked)
    else if applyDelay && c.moveDelay > 0 then (cleared, Delayed(c.moveDelay))
    else (cleared, Yielding)
  }

  /** The code a checkpoint runs when the event loop lets it run. */
  function Proceed(s: Checkpoint): Checkpoint {
    if s.point == Yielding && !s.control.cancelRequested && !s.control.paused then s.(point := Returned)
    else
      var (control, point) := ReadFlags(s.control, s.applyDelay);
      s.(control := control, point := point)
  }

  datatype Step = Operator(op: Operation) | Turn | TimeOut

  predicate Enabled(s: Checkpoint, step: Step) {
    match step
    case Operator(_) => true
    case Turn => !s.Finished() && !s.Asleep()
    case TimeOut => s.point.Delayed?
  }

  function Next(s: Checkpoint, step: Step): Checkpoint
    requires Enabled(s, step)
  {
    match step
    case Operator(op) => s.(control := Operate(s.control, op))
    case Turn => Proceed(s)
    case TimeOut => s.(point := Returned)
  }

  /** A checkpoint entered now, and any schedule of operations, turns and timeouts after that. */
  function Entered(c: Control, applyDelay: bool): Checkpoint {
    Checkpoint(c, Top, applyDelay)
  }

  predicate Legal(s: Checkpoint, steps: seq<Step>)
    decreases |steps|
  {
    steps == [] || (Enabled(s, steps[0]) && Legal(Next(s, steps[0]), steps[1..]))
  }

  function After(s: Checkpoint, steps: seq<Step>): Checkpoint
    requires Legal(s, steps)
    decreases |steps|
  {
    if steps == [] then s else After(Next(s, steps[0]), steps[1..])
  }

  // ---- No lost wakeup ----

  /** A checkpoint that sleeps does so on the flags as they are. */
  predicate NoLostWakeup(s: Checkpoint) {
    && ValidDelay(s.control.moveDelay)
    && (s.Asleep() && s.point == Blocked ==> s.control.paused && !s.control.cancelRequested)
    && (s.Asleep() && s.point.Delayed? ==>
          && !s.control.paused && !s.control.cancelRequested
          && s.applyDelay && 0 < s.point.delay == s.control.moveDelay)
  }

  /** In every schedule of every checkpoint, whoever sleeps has seen the latest flags. */
  lemma {:induction false} NoWakeupIsLost(s: Checkpoint, steps: seq<Step>)
    requires NoLostWakeup(s) && Legal(s, steps)
    ensures NoLostWakeup(After(s, steps))
    decreases |steps|
  {
    if steps != [] {
      NoWakeupIsLost(Next(s, steps[0]), steps[1..]);
    }
  }

  /** A turn that finds the run paused, or a delay to wait for, leaves the checkpoint asleep: it does not spin. */
  lemma TurnsEndAsleep(s: Checkpoint)
    requires !s.Finished() && !s.control.cancelRequested
    requires s.control.paused || (s.point != Yielding && s.applyDelay && 0 < s.control.moveDelay)
    ensures Proceed(s).Asleep()
    ensures Proceed(s).point == if s.control.paused then Blocked else Delayed(s.control.moveDelay)
  {
  }

  /** Any accepted operation wakes a sleeper; only a refused delay leaves it asleep. */
  lemma OperationsWake(s: Checkpoint, op: Operation)
    requires s.Asleep()
    ensures Next(s, Operator(op)).Asleep() <==> Refused(op)
  {
  }

  /** A cancel that reaches a checkpoint before it finishes makes its next turn raise. */
  lemma CancelRaises(s: Checkpoint)
    requires !s.Finished()
    ensures
      var cancelled := Next(s, Operator(Cancel));
      Enabled(cancelled, Turn) && Next(cancelled, Turn).point == Raised
  {
  }

  lemma {:induction false} CancelStays(s: Checkpoint, steps: seq<Step>)
    requires s.control.cancelRequested && Legal(s, steps)
    ensures After(s, steps).control.cancelRequested
    decreases |steps|
  {
    if steps != [] {
      CancelStays(Next(s, steps[0]), steps[1..]);
    }
  }

  /** Once cancelled, a checkpoint that is entered never returns: its first turn raises. */
  lemma {:induction false} EnteredAfterCancelRaises(s: Checkpoint, steps: seq<Step>)
    requires s.control.cancelRequested && (s.point == Top || s.point == Raised) && Legal(s, steps)
    ensures After(s, steps).point == (if s.point == Raised || Turn in steps then Raised else Top)
    decreases |steps|
  {
    if steps != [] {
      EnteredAfterCancelRaises(Next(s, steps[0]), steps[1..]);
      assert Turn in steps <==> steps[0] == Turn || Turn in steps[1..];
    }
  }

  /** While nobody resumes or cancels, a checkpoint entered in a paused run never gets past its wait. */
  lemma {:induction false} PausedCheckpointWaits(s: Checkpoint, steps: seq<Step>)
    requires s.control.paused && !s.control.cancelRequested && (s.point == Top || s.point == Blocked)
    requires Legal(s, steps) && Operator(Resume) !in steps && Operator(Cancel) !in steps
    ensures After(s, steps).point == Top || After(s, steps).point == Blocked
    ensures After(s, steps).control.paused && !After(s, steps).control.cancelRequested
    decreases |steps|
  {
    if steps != [] {
      assert steps[0] in steps;
      PausedCheckpointWaits(Next(s, steps[0]), steps[1..]);
    }
  }

  // ---- Returning ----

  /** The step that returns read both flags clear at that instant, or was the end of a delay. */
  lemma ReturnReadsClearFlags(s: Checkpoint, step: Step)
    requires !s.Finished() && Enabled(s, step) && Next(s, step).point == Returned
    ensures step == TimeOut || (step == Turn && s.point == Yielding)
    ensures step == Turn ==> !s.control.paused && !s.control.cancelRequested
  {
  }

  /** Without a delay to apply there is no timeout, so every return is of that kind. */
  lemma {:induction false} UndelayedNeverTimesOut(s: Checkpoint, steps: seq<Step>)
    requires !s.applyDelay && !s.point.Delayed? && Legal(s, steps)
    ensures TimeOut !in steps && !After(s, steps).point.Delayed?
    decreases |steps|
  {
    if steps != [] {
      UndelayedNeverTimesOut(Next(s, steps[0]), steps[1..]);
      assert steps == [steps[0]] + steps[1..];
    }
  }

  /** Returning in spite of a set flag takes a timeout that the flag came too late for. */
  lemma LateFlagsAreMissedOnlyByTimeouts(s: Checkpoint, step: Step)
    requires NoLostWakeup(s) && !s.Finished() && Enabled(s, step) && Next(s, step).point == Returned
    requires s.control.paused || s.control.cancelRequested
    ensures step == TimeOut && s.control.changed
  {
  }

  // ---- Which cancels can be missed ----

  /** After a cancel, a checkpoint that waits for no delay raises at its next turn: it never returns. */
  lemma {:induction false} CancelledNeverReturns(s: Checkpoint, steps: seq<Step>)
    requires s.control.cancelRequested && !s.point.Delayed? && s.point != Returned && Legal(s, steps)
    ensures After(s, steps).point != Returned && !After(s, steps).point.Delayed?
    decreases |steps|
  {
    if steps != [] {
      CancelledNeverReturns(Next(s, steps[0]), steps[1..]);
    }
  }

  lemma OneStep(s: Checkpoint, step: Step)
    requires Enabled(s, step)
    ensures Legal(s, [step]) && After(s, [step]) == Next(s, step)
  {
    assert [step][1..] == [];
  }

  /** A cancel that reaches an unfinished checkpoint can be missed exactly if it arrives during a delay. */
  lemma CancelIsMissedExactlyInDelay(s: Checkpoint)
    requires !s.Finished()
    ensures
      var cancelled := Next(s, Operator(Cancel));
      (exists steps :: Legal(cancelled, steps) && After(cancelled, steps).point == Returned) <==> s.point.Delayed?
  {
    var cancelled := Next(s, Operator(Cancel));
    if s.point.Delayed? {
      OneStep(cancelled, TimeOut);
    } else {
      forall steps | Legal(cancelled, steps) ensures After(cancelled, steps).point != Returned {
        CancelledNeverReturns(cancelled, steps);
      }
    }
  }

  /** A checkpoint returns after a schedule in which a cancel reached it before it had finished. */
  ghost predicate Misses(s: Checkpoint, before: seq<Step>, after: seq<Step>) {
    && Legal(s, before) && !After(s, before).Finished()
    && var cancelled := Next(After(s, before), Operator(Cancel));
       Legal(cancelled, after) && After(cancelled, after).point == Returned
  }

  lemma MissedInDelay(s: Checkpoint, before: seq<Step>, after: seq<Step>)
    requires Misses(s, before, after)
    ensures After(s, before).point.Delayed?
  {
    if !After(s, before).point.Delayed? {
      CancelledNeverReturns(Next(After(s, before), Operator(Cancel)), after);
    }
  }

  predicate KeepsDelay(steps: seq<Step>) {
    forall step | step in steps :: step.Operator? ==> !step.op.SetMoveDelay?
  }

  /** Whoever gets as far as a delay had one to apply, and no cancel before. */
  lemma {:induction false} DelayedHadDelay(s: Checkpoint, steps: seq<Step>)
    requires Legal(s, steps) && After(s, steps).point.Delayed? && !s.point.Delayed?
    ensures s.applyDelay && !s.control.cancelRequested
    ensures KeepsDelay(steps) ==> 0 < s.control.moveDelay
    decreases |steps|
  {
    if steps != [] {
      var t := Next(s, steps[0]);
      assert steps == [steps[0]] + steps[1..];
      if !t.point.Delayed? {
        DelayedHadDelay(t, steps[1..]);
      }
    }
  }

  /** With a delay to apply, a cancel during the delay is missed if the delay runs out first. */
  lemma TimeoutCanMissCancel(c: Control)
    requires 0 < c.moveDelay && !c.cancelRequested
    ensures Misses(Entered(c, true), [Operator(Resume), Turn], [TimeOut])
    ensures KeepsDelay([Operator(Resume), Turn])
  {
    var s, before := Entered(c, true), [Operator(Resume), Turn];
    var t := Next(s, Operator(Resume));
    assert before[1..] == [Turn];
    OneStep(t, Turn);
    assert After(s, before) == Next(t, Turn);
    OneStep(Next(Next(t, Turn), Operator(Cancel)), TimeOut);
  }

  /** The operator's first move may also be to set the delay. */
  lemma NewDelayCanMissCancel(c: Control)
    requires !c.cancelRequested
    ensures Misses(Entered(c, true), [Operator(SetMoveDelay(Some(20)))] + [Operator(Resume), Turn], [TimeOut])
  {
    var slower := Operator(SetMoveDelay(Some(20)));
    var rest := [Operator(Resume), Turn];
    TimeoutCanMissCancel(Operate(c, slower.op));
    assert ([slower] + rest)[0] == slower && ([slower] + rest)[1..] == rest;
    assert Next(Entered(c, true), slower) == Entered(Operate(c, slower.op), true);
  }

  /**
   * While nobody changes the delay, a checkpoint can miss a cancel exactly if it is entered, not yet cancelled,
   * with a delay to apply.
   */
  lemma CancelCanBeMissedExactlyWithDelay(c: Control, applyDelay: bool)
    ensures
      (exists before, after :: KeepsDelay(before) && Misses(Entered(c, applyDelay), before, after))
      <==> applyDelay && 0 < c.moveDelay && !c.cancelRequested
  {
    var s := Entered(c, applyDelay);
    if applyDelay && 0 < c.moveDelay && !c.cancelRequested {
      TimeoutCanMissCancel(c);
    }
    forall before, after | KeepsDelay(before) && Misses(s, before, after)
      ensures applyDelay && 0 < c.moveDelay && !c.cancelRequested
    {
      MissedInDelay(s, before, after);
      DelayedHadDelay(s, before);
    }
  }

  /** If the delay may be changed as well, one that is asked to apply delays always can. */
  lemma CancelCanBeMissedExactlyIfDelaysApply(c: Control, applyDelay: bool)
    ensures
      (exists before, after :: Misses(Entered(c, applyDelay), before, after)) <==> applyDelay && !c.cancelRequested
  {
    var s := Entered(c, applyDelay);
    if applyDelay && !c.cancelRequested {
      NewDelayCanMissCancel(c);
    }
    forall before, after | Misses(s, before, after) ensures applyDelay && !c.cancelRequested {
      MissedInDelay(s, before, after);
      DelayedHadDelay(s, before);
    }
  }

  // ---- The object ----

  class SimulationControl {
    var paused: bool
    var cancelRequested: bool
    var moveDelay: int
    var changed: bool

    ghost function View(): Control
      reads this
    {
      Control(paused, cancelRequested, moveDelay, changed)
    }

    ghost predicate Valid()
      reads this
    {
      ValidDelay(moveDelay)
    }

    constructor ()
      ensures Valid() && View() == NEW_CONTROL
    {
      paused, cancelRequested, moveDelay, changed := false, false, 0, false;
    }

    method Pause()
      modifies this
      ensures View() == Operate(old(View()), Operation.Pause)
    {
      paused, changed := true, true;
    }

    method Resume()
      modifies this
      ensures View() == Operate(old(View()), Operation.Resume)
    {
      paused, changed := false, true;
    }

    method Cancel()
      modifies this
      ensures View() == Operate(old(View()), Operation.Cancel)
    {
      cancelRequested, changed := true, true;
    }

    /** A refused delay changes nothing. */
    method SetMoveDelay(ms: Option<int>) returns (refused: bool)
      modifies this
      ensures View() == Operate(old(View()), Operation.SetMoveDelay(ms))
      ensures refused == Refused(Operation.SetMoveDelay(ms))
      ensures old(Valid()) ==> Valid()
    {
      if ms.None? || !(0 <= ms.value <= MAX_MOVE_DELAY_MS) || ms.value % MOVE_DELAY_STEP_MS != 0 {
        return true;
      }
      moveDelay, changed := ms.value, true;
      return false;
    }

    /** One stretch of the checkpoint coroutine between two awaits. */
    method CheckpointTurn(point: Point, applyDelay: bool) returns (next: Point)
      requires point != Returned && point != Raised
      modifies this
      ensures Checkpoint(View(), next, applyDelay) == Proceed(Checkpoint(old(View()), point, applyDelay))
    {
      if point == Yielding && !cancelRequested && !paused {
        return Returned;
      }
      changed := false;
      if cancelRequested {
        return Raised;
      }
      if paused {
        return Blocked;
      }
      var delay := if applyDelay then moveDelay else 0;
      next := if delay > 0 then Delayed(delay) else Yielding;
    }
  }
}
