/** The replay memory as a mutable object with reused batch buffers. */
module ReplayBuffer {
  import opened Wrappers
  import opened ReplayWindows

  datatype ReplayError = SizeNotPositive | TooFewFrames | WrongStateSize | WrongNextStateSize | NegativeAction

  function CheckSizes(stateSize: int, sequenceLength: int, batchSize: int, maxFrames: int): Option<ReplayError> {
    if stateSize <= 0 || sequenceLength <= 0 || batchSize <= 0 || maxFrames <= 0 then Some(SizeNotPositive)
    else if maxFrames < sequenceLength * batchSize then Some(TooFewFrames)
    else None
  }

  function CheckTransition(stateSize: int, t: Transition): Option<ReplayError> {
    if |t.state| != stateSize then Some(WrongStateSize)
    else if |t.nextState| != stateSize then Some(WrongNextStateSize)
    else if t.action < 0 then Some(NegativeAction)
    else None
  }

  /** What the constructor and `append` demand, and which error comes first. */
  lemma SizesAreRefusedExactly(stateSize: int, sequenceLength: int, batchSize: int, maxFrames: int)
    ensures
      var e := CheckSizes(stateSize, sequenceLength, batchSize, maxFrames);
      var positive := 0 < stateSize && 0 < sequenceLength && 0 < batchSize && 0 < maxFrames;
      && (e == Some(SizeNotPositive) <==> !positive)
      && (e == Some(TooFewFrames) <==> positive && maxFrames < sequenceLength * batchSize)
      && (e.None? <==> positive && sequenceLength * batchSize <= maxFrames)
  {
  }

  lemma TransitionIsRefusedExactly(stateSize: int, t: Transition)
    ensures
      var e := CheckTransition(stateSize, t);
      && (e == Some(WrongStateSize) <==> |t.state| != stateSize)
      && (e == Some(WrongNextStateSize) <==> |t.state| == stateSize && |t.nextState| != stateSize)
      && (e == Some(NegativeAction) <==> |t.state| == |t.nextState| == stateSize && t.action < 0)
      && (e.None? <==> |t.state| == |t.nextState| == stateSize && 0 <= t.action)
  {
  }

  ghost predicate WholeEpisodes(history: seq<seq<Transition>>) {
    forall i | 0 <= i < |history| :: OneEpisode(history[i])
  }

  ghost function PackAll(history: seq<seq<Transition>>): (es: seq<Episode>)
    requires WholeEpisodes(history)
    ensures |es| == |history| && AllShaped(es)
    ensures forall i | 0 <= i < |es| :: es[i] == Pack(history[i])
  {
    seq(|history|, i requires 0 <= i < |history| => Pack(history[i]))
  }

  /** What a draw without replacement from `range(total)` returns. */
  predicate IsSample(ids: seq<nat>, total: nat, count: nat) {
    && |ids| == count
    && Distinct(ids)
    && forall i | 0 <= i < count :: ids[i] < total
  }

  function RowOf(a: array2<Obs>, b: nat): (row: seq<Obs>)
    requires b < a.Length0
    reads a
    ensures |row| == a.Length1
    ensures forall t | 0 <= t < a.Length1 :: row[t] == a[b, t]
  {
    seq(a.Length1, t requires 0 <= t < a.Length1 reads a => a[b, t])
  }

  /** Assign one row of a batch buffer and leave the others alone. */
  method CopyRow(a: array2<Obs>, b: nat, row: seq<Obs>)
    requires b < a.Length0 && |row| == a.Length1
    modifies a
    ensures RowOf(a, b) == row
    ensures forall i | 0 <= i < a.Length0 && i != b :: RowOf(a, i) == old(RowOf(a, i))
  {
    forall t | 0 <= t < a.Length1 {
      a[b, t] := row[t];
    }
  }

  class ReplayMemory {
    const stateSize: int
    const sequenceLength: nat
    const batchSize: nat
    const maxFrames: nat
    var episodes: seq<Episode>
    var eligible: seq<Episode>
    var cumulative: seq<nat>
    var totalWindows: nat
    var current: seq<Transition>
    var frameCount: nat
    const batchStates: array2<Obs>
    const batchNextStates: array2<Obs>
    const batchActions: array<int>
    const batchRewards: array<real>
    const batchDones: array<bool>

    /** Every episode ever finalized, transition by transition. */
    ghost var history: seq<seq<Transition>>

    ghost predicate Buffers() {
      && batchStates.Length0 == batchNextStates.Length0 == batchSize
      && batchStates.Length1 == batchNextStates.Length1 == sequenceLength
      && batchActions.Length == batchRewards.Length == batchDones.Length == batchSize
      && batchStates != batchNextStates
    }

    ghost predicate Valid()
      reads this
    {
      && Buffers()
      && 0 < sequenceLength
      && WholeEpisodes(history)
      && episodes == Evict(PackAll(history), maxFrames)
      && frameCount == TotalSize(episodes)
      && eligible == Eligible(episodes, sequenceLength)
      && cumulative == Cumulative(eligible, sequenceLength)
      && totalWindows == TotalWindows(cumulative)
      && forall t | t in current :: !t.done
    }

    constructor Start(stateSize: int, sequenceLength: int, batchSize: int, maxFrames: int)
      requires CheckSizes(stateSize, sequenceLength, batchSize, maxFrames).None?
      ensures Valid() && history == [] && current == []
      ensures this.stateSize == stateSize && this.sequenceLength == sequenceLength
      ensures this.batchSize == batchSize && this.maxFrames == maxFrames
      ensures fresh(batchStates) && fresh(batchNextStates)
      ensures fresh(batchActions) && fresh(batchRewards) && fresh(batchDones)
    {
      this.stateSize := stateSize;
      this.sequenceLength := sequenceLength;
      this.batchSize := batchSize;
      this.maxFrames := maxFrames;
      episodes, eligible, cumulative, totalWindows, current, frameCount := [], [], [], 0, [], 0;
      history := [];
      batchStates := new Obs[batchSize, sequenceLength]((i, j) => []);
      batchNextStates := new Obs[batchSize, sequenceLength]((i, j) => []);
      batchActions := new int[batchSize];
      batchRewards := new real[batchSize];
      batchDones := new bool[batchSize];
      new;
      assert PackAll(history) == [];
    }

    /** Construction with the checks and their errors. */
    static method Create(stateSize: int, sequenceLength: int, batchSize: int, maxFrames: int)
      returns (r: Result<ReplayMemory, ReplayError>)
      ensures r.Err? ==> CheckSizes(stateSize, sequenceLength, batchSize, maxFrames) == Some(r.error)
      ensures r.Ok? ==> CheckSizes(stateSize, sequenceLength, batchSize, maxFrames).None?
      ensures r.Ok? ==> fresh(r.value) && r.value.Valid() && r.value.history == [] && r.value.current == []
    {
      var problem := CheckSizes(stateSize, sequenceLength, batchSize, maxFrames);
      if problem.Some? {
        return Err(problem.value);
      }
      var memory := new ReplayMemory.Start(stateSize, sequenceLength, batchSize, maxFrames);
      r := Ok(memory);
    }

    /** Add a transition; a terminal one closes the episode. */
    method Append(t: Transition) returns (problem: Option<ReplayError>)
      requires Valid()
      modifies this
      ensures Valid()
      ensures problem == CheckTransition(stateSize, t)
      ensures problem.Some? ==> unchanged(this)
      ensures problem.None? && t.done ==> history == old(history) + [old(current) + [t]] && current == []
      ensures problem.None? && !t.done ==> history == old(history) && current == old(current) + [t]
      ensures problem.None? && !t.done ==> episodes == old(episodes)
    {
      problem := CheckTransition(stateSize, t);
      if problem.Some? {
        return;
      }
      current := current + [t];
      if t.done {
        FinalizeEpisode();
      }
    }

    /** Pack the open episode, evict from the left, and renumber the windows. */
    method FinalizeEpisode()
      requires Buffers() && 0 < sequenceLength
      requires WholeEpisodes(history) && OneEpisode(current)
      requires episodes == Evict(PackAll(history), maxFrames) && frameCount == TotalSize(episodes)
      modifies this
      ensures Valid() && history == old(history) + [old(current)] && current == []
    {
      var episode := Pack(current);
      TotalSizeAppend(episodes, episode);
      EvictIsIncremental(PackAll(history), episode, maxFrames);
      assert PackAll(history + [current]) == PackAll(history) + [episode];
      episodes := episodes + [episode];
      frameCount := frameCount + episode.Size();
      history := history + [current];
      current := [];
      EvictOldest();
      eligible := Eligible(episodes, sequenceLength);
      cumulative := Cumulative(eligible, sequenceLength);
      totalWindows := TotalWindows(cumulative);
    }

    /** Drop whole episodes from the left while too many frames are held; the deque is never empty then. */
    method EvictOldest()
      requires frameCount == TotalSize(episodes)
      modifies this`episodes, this`frameCount
      ensures episodes == Evict(old(episodes), maxFrames) && frameCount == TotalSize(episodes)
    {
      while maxFrames < frameCount
        invariant frameCount == TotalSize(episodes)
        invariant Evict(episodes, maxFrames) == Evict(old(episodes), maxFrames)
        decreases |episodes|
      {
        var removed := episodes[0];
        episodes := episodes[1..];
        frameCount := frameCount - removed.Size();
      }
    }

    /** The window that the buffers hold in one batch row. */
    ghost function Row(b: nat): Window
      requires Buffers() && b < batchSize
      reads batchStates, batchNextStates, batchActions, batchRewards, batchDones
    {
      Window(RowOf(batchStates, b), batchActions[b], batchRewards[b], RowOf(batchNextStates, b), batchDones[b])
    }

    /** Fill the buffers with the drawn windows of the plain list; too few windows leave them alone. */
    method Sample(ids: seq<nat>) returns (filled: bool)
      requires Valid()
      requires batchSize <= totalWindows ==> IsSample(ids, totalWindows, batchSize)
      modifies batchStates, batchNextStates, batchActions, batchRewards, batchDones
      ensures filled == (batchSize <= totalWindows)
      ensures !filled ==> unchanged(batchStates, batchNextStates, batchActions, batchRewards, batchDones)
      ensures AllShaped(episodes)
      ensures filled ==> forall b | 0 <= b < batchSize ::
                ids[b] < |WindowList(episodes, sequenceLength)|
                && Row(b) == WindowList(episodes, sequenceLength)[ids[b]]
      ensures filled && AllContiguous(history) ==>
                forall b | 0 <= b < batchSize :: WasStored(history, Row(b), sequenceLength)
    {
      RetainedAreShaped();
      if totalWindows < batchSize {
        return false;
      }
      for b := 0 to batchSize
        invariant forall i | 0 <= i < b ::
                    ids[i] < |WindowList(episodes, sequenceLength)|
                    && Row(i) == WindowList(episodes, sequenceLength)[ids[i]]
      {
        var episode, start := DecodeId(ids[b]);
        StoreWindow(b, episode, start);
      }
      filled := true;
      if AllContiguous(history) {
        forall b | 0 <= b < batchSize ensures WasStored(history, Row(b), sequenceLength) {
          ListedWindowWasStored(this, ids[b]);
        }
      }
    }

    /** First half of the loop body of `Sample`: the episode and start that a window id stands for. */
    method DecodeId(id: nat) returns (episode: Episode, start: nat)
      requires Valid() && AllShaped(episodes) && id < totalWindows
      ensures episode.Shaped() && start + sequenceLength <= episode.Size()
      ensures id < |WindowList(episodes, sequenceLength)|
      ensures WindowAt(episode, start, sequenceLength) == WindowList(episodes, sequenceLength)[id]
    {
      DecodedWindow(episodes, sequenceLength, id);
      var index := BisectRight(cumulative, id);
      var previousTotal := if index != 0 then cumulative[index - 1] else 0;
      start := id - previousTotal;
      episode := eligible[index];
    }

    /** Second half: copy the window into one row of the five buffers. */
    method StoreWindow(b: nat, episode: Episode, start: nat)
      requires Buffers() && 0 < sequenceLength && b < batchSize
      requires episode.Shaped() && start + sequenceLength <= episode.Size()
      modifies batchStates, batchNextStates, batchActions, batchRewards, batchDones
      ensures Row(b) == WindowAt(episode, start, sequenceLength)
      ensures forall i | 0 <= i < batchSize && i != b :: Row(i) == old(Row(i))
    {
      var end := start + sequenceLength;
      CopyRow(batchStates, b, episode.states[start..end]);
      batchActions[b] := episode.actions[end - 1];
      batchRewards[b] := episode.rewards[end - 1];
      CopyRow(batchNextStates, b, episode.states[start + 1..end + 1]);
      batchDones[b] := episode.dones[end - 1];
    }

    lemma RetainedAreShaped()
      requires Valid()
      ensures AllShaped(episodes)
    {
      EvictIsSuffix(PackAll(history), maxFrames);
    }
  }

  // ---- What the retained windows are ----

  /** A retained episode is the packed form of one in the history. */
  lemma RetainedIsPacked(memory: ReplayMemory, k: nat)
    requires memory.Valid() && k < |memory.episodes|
    ensures exists e | 0 <= e < |memory.history| ::
              memory.history[e] != [] && memory.episodes[k] == Pack(memory.history[e])
  {
    var all := PackAll(memory.history);
    EvictIsSuffix(all, memory.maxFrames);
    var e := Dropped(all, memory.maxFrames) + k;
    assert memory.episodes[k] == all[e] == Pack(memory.history[e]);
  }

  ghost predicate AllContiguous(history: seq<seq<Transition>>) {
    forall e | 0 <= e < |history| :: Contiguous(history[e])
  }

  /** The window is a stretch of one of the recorded episodes. */
  ghost predicate WasStored(history: seq<seq<Transition>>, w: Window, length: nat) {
    exists e, start :: 0 <= e < |history| && 0 <= start && IsStretch(w, history[e], start, length)
  }

  /** Every window that sampling can return is one stretch of stored transitions, in both its rows of observations. */
  lemma ListedWindowWasStored(memory: ReplayMemory, id: nat)
    requires memory.Valid() && AllShaped(memory.episodes)
    requires AllContiguous(memory.history)
    requires id < |WindowList(memory.episodes, memory.sequenceLength)|
    ensures
      WasStored(memory.history, WindowList(memory.episodes, memory.sequenceLength)[id], memory.sequenceLength)
  {
    var es, length := memory.episodes, memory.sequenceLength;
    WindowListLength(es, length);
    WindowListAt(es, length, id);
    var (k, start) := AllWindows(es, length)[id];
    RetainedIsPacked(memory, k);
    var e :| 0 <= e < |memory.history| && memory.history[e] != [] && es[k] == Pack(memory.history[e]);
    WindowIsStretch(memory.history[e], start, length);
    assert IsStretch(WindowList(es, length)[id], memory.history[e], start, length);
  }
}
