/** Episodes packed into N + 1 observations, eviction, and the numbering of training windows. */
module ReplayWindows {
  import opened Wrappers

  type Obs = seq<real>

  datatype Transition = Transition(state: Obs, action: int, reward: real, nextState: Obs, done: bool)

  /** N transitions backed by N + 1 observations. */
  datatype Episode = Episode(states: seq<Obs>, actions: seq<int>, rewards: seq<real>, dones: seq<bool>) {
    function Size(): nat {
      |actions|
    }

    predicate Shaped() {
      && 0 < |actions| == |rewards| == |dones|
      && |states| == |actions| + 1
    }
  }

  // ---- Packing ----

  function Pack(ts: seq<Transition>): (e: Episode)
    requires ts != []
    ensures e.Shaped() && e.Size() == |ts|
  {
    Episode(
      seq(|ts|, i requires 0 <= i < |ts| => ts[i].state) + [ts[|ts| - 1].nextState],
      seq(|ts|, i requires 0 <= i < |ts| => ts[i].action),
      seq(|ts|, i requires 0 <= i < |ts| => ts[i].reward),
      seq(|ts|, i requires 0 <= i < |ts| => ts[i].done))
  }

  function Unpack(e: Episode): (ts: seq<Transition>)
    requires e.Shaped()
    ensures |ts| == e.Size()
  {
    seq(e.Size(), i requires 0 <= i < e.Size() =>
      Transition(e.states[i], e.actions[i], e.rewards[i], e.states[i + 1], e.dones[i]))
  }

  /** Each state is the preceding next state: what `append` asks of its caller. */
  ghost predicate Contiguous(ts: seq<Transition>) {
    forall i, j | 0 <= i && j == i + 1 < |ts| :: ts[i].nextState == ts[j].state
  }

  lemma PackedAt(ts: seq<Transition>, i: nat)
    requires i < |ts|
    ensures
      var back := Unpack(Pack(ts))[i];
      && back.(nextState := ts[i].nextState) == ts[i]
      && back.nextState == (if i + 1 < |ts| then ts[i + 1].state else ts[i].nextState)
  {
  }

  /** Keeping N + 1 observations loses nothing exactly when the transitions were contiguous. */
  lemma PackingIsLosslessWhenContiguous(ts: seq<Transition>)
    requires ts != []
    ensures Unpack(Pack(ts)) == ts <==> Contiguous(ts)
  {
    var back := Unpack(Pack(ts));
    forall i | 0 <= i < |ts| ensures back[i] == ts[i] <==> (i + 1 < |ts| ==> ts[i].nextState == ts[i + 1].state) {
      PackedAt(ts, i);
    }
    if Contiguous(ts) {
      assert forall i | 0 <= i < |ts| :: back[i] == ts[i];
    }
  }

  /** The terminal flag is set on the last transition and nowhere else. */
  ghost predicate OneEpisode(ts: seq<Transition>) {
    && ts != []
    && forall i | 0 <= i < |ts| :: ts[i].done <==> i == |ts| - 1
  }

  // ---- Eviction ----

  function TotalSize(es: seq<Episode>): nat {
    if es == [] then 0 else es[0].Size() + TotalSize(es[1..])
  }

  lemma {:induction false} TotalSizeAppend(es: seq<Episode>, e: Episode)
    ensures TotalSize(es + [e]) == TotalSize(es) + e.Size()
  {
    if es == [] {
      assert TotalSize([] + [e]) == e.Size() + TotalSize([]);
    } else {
      assert (es + [e])[1..] == es[1..] + [e];
      TotalSizeAppend(es[1..], e);
    }
  }

  /** Dropping episodes from the left until the rest fits. */
  function Evict(es: seq<Episode>, maxFrames: nat): seq<Episode> {
    if TotalSize(es) <= maxFrames then es else Evict(es[1..], maxFrames)
  }

  lemma {:induction false} SuffixSizes(es: seq<Episode>, m: nat, n: nat)
    requires m <= n <= |es|
    ensures TotalSize(es[n..]) <= TotalSize(es[m..])
    decreases n - m
  {
    if m < n {
      assert es[m..][1..] == es[m + 1..];
      SuffixSizes(es, m + 1, n);
    }
  }

  /** How many episodes eviction drops. */
  function Dropped(es: seq<Episode>, maxFrames: nat): (n: nat)
    ensures n <= |es|
  {
    if TotalSize(es) <= maxFrames then 0 else 1 + Dropped(es[1..], maxFrames)
  }

  lemma {:induction false} EvictIsSuffix(es: seq<Episode>, maxFrames: nat)
    ensures Evict(es, maxFrames) == es[Dropped(es, maxFrames)..]
    ensures TotalSize(Evict(es, maxFrames)) <= maxFrames
  {
    if maxFrames < TotalSize(es) {
      EvictIsSuffix(es[1..], maxFrames);
    }
  }

  lemma {:induction false} LongerSuffixIsTooLarge(es: seq<Episode>, maxFrames: nat, n: nat)
    requires n < Dropped(es, maxFrames)
    ensures maxFrames < TotalSize(es[n..])
  {
    if n == 0 {
      assert es[0..] == es;
    } else {
      assert es[n..] == es[1..][n - 1..];
      LongerSuffixIsTooLarge(es[1..], maxFrames, n - 1);
    }
  }

  /** Greedy eviction keeps exactly the longest suffix whose total size fits: a suffix fits iff it is no longer. */
  lemma EvictKeepsLongestSuffix(es: seq<Episode>, maxFrames: nat, n: nat)
    requires n <= |es|
    ensures Evict(es, maxFrames) == es[Dropped(es, maxFrames)..]
    ensures TotalSize(es[n..]) <= maxFrames <==> Dropped(es, maxFrames) <= n
  {
    EvictIsSuffix(es, maxFrames);
    if n < Dropped(es, maxFrames) {
      LongerSuffixIsTooLarge(es, maxFrames, n);
    } else {
      SuffixSizes(es, Dropped(es, maxFrames), n);
    }
  }

  /** Evicting after every episode is the same as evicting once from the whole history. */
  lemma {:induction false} EvictIsIncremental(es: seq<Episode>, e: Episode, maxFrames: nat)
    ensures Evict(Evict(es, maxFrames) + [e], maxFrames) == Evict(es + [e], maxFrames)
  {
    if maxFrames < TotalSize(es) {
      TotalSizeAppend(es, e);
      assert (es + [e])[1..] == es[1..] + [e];
      EvictIsIncremental(es[1..], e, maxFrames);
    }
  }

  // ---- Windows ----

  /** The training window that starts at `start`, with the supervision of its last transition. */
  datatype Window = Window(states: seq<Obs>, action: int, reward: real, nextStates: seq<Obs>, done: bool)

  function WindowAt(e: Episode, start: nat, length: nat): (w: Window)
    requires e.Shaped() && 0 < length && start + length <= e.Size()
  {
    var last := start + length - 1;
    Window(
      e.states[start..start + length],
      e.actions[last],
      e.rewards[last],
      e.states[start + 1..start + length + 1],
      e.dones[last])
  }

  /** The window is that stretch of transitions, place by place, with the supervision of the last of them. */
  ghost predicate IsStretch(w: Window, ts: seq<Transition>, start: nat, length: nat) {
    && 0 < length && start + length <= |ts|
    && |w.states| == length && |w.nextStates| == length
    && (forall i | 0 <= i < length :: w.states[i] == ts[start + i].state && w.nextStates[i] == ts[start + i].nextState)
    && w.action == ts[start + length - 1].action
    && w.reward == ts[start + length - 1].reward
    && w.done == ts[start + length - 1].done
  }

  /** Read out of the packed form, a window of contiguous transitions is a stretch of them. */
  lemma WindowIsStretch(ts: seq<Transition>, start: nat, length: nat)
    requires Contiguous(ts) && 0 < length && start + length <= |ts|
    ensures IsStretch(WindowAt(Pack(ts), start, length), ts, start, length)
  {
    var w := WindowAt(Pack(ts), start, length);
    forall i | 0 <= i < length
      ensures w.states[i] == ts[start + i].state && w.nextStates[i] == ts[start + i].nextState
    {
      PackedAt(ts, start + i);
      var j := start + i + 1;
      assert j < |ts| ==> ts[start + i].nextState == ts[j].state;
    }
  }

  function WindowCount(e: Episode, length: nat): nat {
    if e.Size() < length then 0 else e.Size() - length + 1
  }

  function Eligible(es: seq<Episode>, length: nat): seq<Episode> {
    if es == [] then []
    else
      var last := es[|es| - 1];
      Eligible(DropLast(es), length) + (if length <= last.Size() then [last] else [])
  }

  lemma {:induction false} EligibleMember(es: seq<Episode>, length: nat, e: Episode)
    ensures e in Eligible(es, length) <==> e in es && length <= e.Size()
  {
    if es != [] {
      EligibleMember(DropLast(es), length, e);
      assert es == DropLast(es) + [es[|es| - 1]];
    }
  }

  /** The plain list of all windows: every (episode, start) in order. */
  function AllWindows(es: seq<Episode>, length: nat): seq<(nat, nat)> {
    if es == [] then []
    else
      AllWindows(DropLast(es), length)
      + seq(WindowCount(es[|es| - 1], length), start => (|es| - 1, start))
  }

  /** The running totals of the window counts. */
  function Cumulative(es: seq<Episode>, length: nat): (totals: seq<nat>)
    ensures |totals| == |es|
  {
    if es == [] then []
    else
      var before := Cumulative(DropLast(es), length);
      before + [(if before == [] then 0 else before[|before| - 1]) + WindowCount(es[|es| - 1], length)]
  }

  function TotalWindows(totals: seq<nat>): nat {
    if totals == [] then 0 else totals[|totals| - 1]
  }

  /** How many leading totals are at most `id`: `bisect_right` on a sorted list. */
  function BisectRight(totals: seq<nat>, id: nat): (k: nat)
    ensures k <= |totals|
  {
    if totals == [] || id < totals[0] then 0 else 1 + BisectRight(totals[1..], id)
  }

  function Before(totals: seq<nat>, k: nat): nat
    requires k <= |totals|
  {
    if k == 0 then 0 else totals[k - 1]
  }

  /** The episode and the start that `sample` computes from a window id. */
  function Decode(totals: seq<nat>, id: nat): (nat, int) {
    var k := BisectRight(totals, id);
    (k, id - Before(totals, k))
  }

  ghost predicate Sorted(totals: seq<nat>) {
    forall i, j | 0 <= i <= j < |totals| :: totals[i] <= totals[j]
  }

  lemma {:induction false} BisectRightMeaning(totals: seq<nat>, id: nat)
    requires Sorted(totals)
    ensures
      var k := BisectRight(totals, id);
      && (forall i | 0 <= i < k :: totals[i] <= id)
      && (forall i | k <= i < |totals| :: id < totals[i])
  {
    if totals != [] && totals[0] <= id {
      BisectRightMeaning(totals[1..], id);
    }
  }

  lemma {:induction false} CumulativeIsSorted(es: seq<Episode>, length: nat)
    ensures Sorted(Cumulative(es, length))
    ensures TotalWindows(Cumulative(es, length)) == |AllWindows(es, length)|
  {
    if es != [] {
      CumulativeIsSorted(DropLast(es), length);
    }
  }

  /** The windows of episode `k` start at the id that the total before it gives. */
  lemma {:induction false} WindowsOfEpisode(es: seq<Episode>, length: nat, k: nat, start: nat)
    requires k < |es| && start < WindowCount(es[k], length)
    ensures
      var id := Before(Cumulative(es, length), k) + start;
      id < |AllWindows(es, length)| && AllWindows(es, length)[id] == (k, start)
    decreases |es|
  {
    var shorter := DropLast(es);
    CumulativeIsSorted(shorter, length);
    assert Before(Cumulative(es, length), k) == Before(Cumulative(shorter, length), k);
    if k < |es| - 1 {
      WindowsOfEpisode(shorter, length, k, start);
    }
  }

  lemma {:induction false} StepOfTotals(es: seq<Episode>, length: nat, k: nat)
    requires k < |es|
    ensures Cumulative(es, length)[k] == Before(Cumulative(es, length), k) + WindowCount(es[k], length)
    decreases |es|
  {
    if k < |es| - 1 {
      StepOfTotals(DropLast(es), length, k);
    }
  }

  /** Decoding an id finds the very window that the plain list has at that place. */
  lemma DecodeIsPlainList(es: seq<Episode>, length: nat, id: nat)
    requires id < |AllWindows(es, length)|
    ensures
      var (k, start) := Decode(Cumulative(es, length), id);
      && k < |es|
      && 0 <= start < WindowCount(es[k], length)
      && AllWindows(es, length)[id] == (k, start)
  {
    var totals := Cumulative(es, length);
    var k := BisectRight(totals, id);
    CumulativeIsSorted(es, length);
    BisectRightMeaning(totals, id);
    assert id < totals[|totals| - 1];
    StepOfTotals(es, length, k);
    WindowsOfEpisode(es, length, k, id - Before(totals, k));
  }

  /** Every window of every episode has an id, which decodes back to it. */
  lemma EveryWindowHasAnId(es: seq<Episode>, length: nat, k: nat, start: nat)
    requires k < |es| && start + length <= es[k].Size()
    ensures
      var id := Before(Cumulative(es, length), k) + start;
      id < |AllWindows(es, length)| && Decode(Cumulative(es, length), id) == (k, start)
  {
    var totals := Cumulative(es, length);
    var id := Before(totals, k) + start;
    WindowsOfEpisode(es, length, k, start);
    CumulativeIsSorted(es, length);
    BisectRightMeaning(totals, id);
    DecodeIsPlainList(es, length, id);
  }

  /** Different ids decode to different windows. */
  lemma DecodeIsInjective(es: seq<Episode>, length: nat, id1: nat, id2: nat)
    requires id1 < |AllWindows(es, length)| && id2 < |AllWindows(es, length)|
    requires Decode(Cumulative(es, length), id1) == Decode(Cumulative(es, length), id2)
    ensures id1 == id2
  {
  }

  // ---- The plain list of window contents ----

  ghost predicate AllShaped(es: seq<Episode>) {
    forall i | 0 <= i < |es| :: es[i].Shaped()
  }

  /** The windows of one episode, in order of their starts. */
  function WindowsOf(e: Episode, length: nat): (windows: seq<Window>)
    requires e.Shaped() && 0 < length
    ensures |windows| == WindowCount(e, length)
  {
    seq(WindowCount(e, length), start requires 0 <= start < WindowCount(e, length) => WindowAt(e, start, length))
  }

  /** The slow form that sampling stands for: the windows of every episode, one after the other. */
  function WindowList(es: seq<Episode>, length: nat): (windows: seq<Window>)
    requires AllShaped(es) && 0 < length
  {
    if es == [] then []
    else
      WindowList(DropLast(es), length) + WindowsOf(es[|es| - 1], length)
  }

  lemma {:induction false} EligibleShaped(es: seq<Episode>, length: nat)
    requires AllShaped(es)
    ensures AllShaped(Eligible(es, length))
  {
    if es != [] {
      EligibleShaped(DropLast(es), length);
    }
  }

  /** Leaving out the short episodes leaves out no window. */
  lemma {:induction false} EligibleKeepsWindows(es: seq<Episode>, length: nat)
    requires AllShaped(es) && 0 < length
    ensures AllShaped(Eligible(es, length))
    ensures WindowList(Eligible(es, length), length) == WindowList(es, length)
  {
    EligibleShaped(es, length);
    if es != [] {
      var last := es[|es| - 1];
      EligibleShaped(DropLast(es), length);
      EligibleKeepsWindows(DropLast(es), length);
      if length <= last.Size() {
        assert DropLast(Eligible(es, length)) == Eligible(DropLast(es), length);
      } else {
        assert WindowsOf(last, length) == [];
        assert WindowList(es, length) == WindowList(DropLast(es), length);
        assert Eligible(es, length) == Eligible(DropLast(es), length);
      }
    }
  }

  /** Each place of the plain list holds the window that the numbering names. */
  lemma {:induction false} WindowListAt(es: seq<Episode>, length: nat, id: nat)
    requires AllShaped(es) && 0 < length && id < |AllWindows(es, length)|
    ensures |WindowList(es, length)| == |AllWindows(es, length)|
    ensures
      var (k, start) := AllWindows(es, length)[id];
      && k < |es| && start < WindowCount(es[k], length) && es[k].Shaped()
      && WindowList(es, length)[id] == WindowAt(es[k], start, length)
    decreases |es|
  {
    var shorter := DropLast(es);
    WindowListLength(es, length);
    WindowListLength(shorter, length);
    if id < |AllWindows(shorter, length)| {
      WindowListAt(shorter, length, id);
      var (k, start) := AllWindows(shorter, length)[id];
      assert AllWindows(es, length)[id] == (k, start) && es[k] == shorter[k];
    } else {
      assert AllWindows(es, length)[id] == (|es| - 1, id - |AllWindows(shorter, length)|);
    }
  }

  lemma {:induction false} WindowListLength(es: seq<Episode>, length: nat)
    requires AllShaped(es) && 0 < length
    ensures |WindowList(es, length)| == |AllWindows(es, length)|
    decreases |es|
  {
    if es != [] {
      WindowListLength(DropLast(es), length);
    }
  }

  /** Decoding an id among the eligible episodes yields the window the plain list of all episodes has there. */
  lemma DecodedWindow(es: seq<Episode>, length: nat, id: nat)
    requires AllShaped(es) && 0 < length && id < TotalWindows(Cumulative(Eligible(es, length), length))
    ensures
      var eligible := Eligible(es, length);
      var (k, start) := Decode(Cumulative(eligible, length), id);
      && k < |eligible| && eligible[k].Shaped()
      && 0 <= start && start + length <= eligible[k].Size()
      && id < |WindowList(es, length)|
      && WindowAt(eligible[k], start, length) == WindowList(es, length)[id]
  {
    var eligible := Eligible(es, length);
    EligibleKeepsWindows(es, length);
    CumulativeIsSorted(eligible, length);
    DecodeIsPlainList(eligible, length, id);
    WindowListAt(eligible, length, id);
    var (k, start) := Decode(Cumulative(eligible, length), id);
    assert AllWindows(eligible, length)[id] == (k, start);
  }

  /** A window's terminal flag is set exactly when the window is the last of its episode. */
  lemma DoneMarksLastWindow(ts: seq<Transition>, start: nat, length: nat)
    requires OneEpisode(ts) && 0 < length && start + length <= |ts|
    ensures WindowAt(Pack(ts), start, length).done <==> start == WindowCount(Pack(ts), length) - 1
  {
  }
}
