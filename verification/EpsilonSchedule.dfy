/** The exploration schedule: its closed form, its floor, and the counters. */
module EpsilonSchedule {
  import opened Wrappers

  const CUTOFF: real := 0.001
  const ACTION_COUNT: nat := 3

  datatype EpsilonError = OutOfRange | MinimumAboveInitial | ZeroDecay | NoActions

  datatype EpsilonConfig = EpsilonConfig(initial: real, minimum: real, decay: real, cutoff: real, actionCount: int)

  predicate Probability(value: real) {
    0.0 <= value <= 1.0
  }

  function CheckEpsilon(c: EpsilonConfig): Option<EpsilonError> {
    if !Probability(c.initial) || !Probability(c.minimum) || !Probability(c.decay) || !Probability(c.cutoff)
    then Some(OutOfRange)
    else if c.minimum > c.initial then Some(MinimumAboveInitial)
    else if c.decay == 0.0 then Some(ZeroDecay)
    else if c.actionCount <= 0 then Some(NoActions)
    else None
  }

  /** What a schedule must satisfy, and which error comes first. */
  lemma ScheduleIsRefusedExactly(c: EpsilonConfig)
    ensures
      var e := CheckEpsilon(c);
      var inRange :=
        0.0 <= c.initial <= 1.0 && 0.0 <= c.minimum <= 1.0 && 0.0 <= c.decay <= 1.0 && 0.0 <= c.cutoff <= 1.0;
      && (e == Some(OutOfRange) <==> !inRange)
      && (e == Some(MinimumAboveInitial) <==> inRange && c.initial < c.minimum)
      && (e == Some(ZeroDecay) <==> inRange && c.minimum <= c.initial && c.decay == 0.0)
      && (e == Some(NoActions) <==> inRange && c.minimum <= c.initial && c.decay != 0.0 && c.actionCount <= 0)
  {
  }

  function RealMax(a: real, b: real): real {
    if a < b then b else a
  }

  /** Hold a decayed value at the minimum, or cut it to zero when the minimum is zero. */
  function Clip(c: EpsilonConfig, decayed: real): real {
    var held := RealMax(c.minimum, decayed);
    if c.minimum == 0.0 && held < c.cutoff then 0.0 else held
  }

  /** A value after one decay. A named product lets proofs replace equals inside it. */
  function Decayed(value: real, decay: real): real {
    value * decay
  }

  /** One completed episode. */
  function NextEpsilon(c: EpsilonConfig, epsilon: real): real {
    Clip(c, Decayed(epsilon, c.decay))
  }

  function EpsilonAfter(c: EpsilonConfig, n: nat): real {
    if n == 0 then c.initial else NextEpsilon(c, EpsilonAfter(c, n - 1))
  }

  /** `start * decay^n`. */
  function Geometric(start: real, decay: real, n: nat): real {
    if n == 0 then start else Decayed(Geometric(start, decay, n - 1), decay)
  }

  /** The closed form: from the first episode on, the n-th power of the decay, held at the minimum or cut to zero. */
  function ClosedForm(c: EpsilonConfig, n: nat): real {
    if n == 0 then c.initial else Clip(c, Geometric(c.initial, c.decay, n))
  }

  lemma MultiplyMonotone(a: real, b: real, f: real)
    requires a <= b && 0.0 <= f
    ensures a * f <= b * f
  {
  }

  lemma DecayShrinks(value: real, decay: real)
    requires 0.0 <= value && Probability(decay)
    ensures 0.0 <= Decayed(value, decay) <= value
  {
    MultiplyMonotone(decay, 1.0, value);
    assert value * decay == decay * value;
  }

  lemma {:induction false} GeometricInRange(start: real, decay: real, n: nat)
    requires 0.0 <= start && Probability(decay)
    ensures 0.0 <= Geometric(start, decay, n) <= start
  {
    if 0 < n {
      GeometricInRange(start, decay, n - 1);
      DecayShrinks(Geometric(start, decay, n - 1), decay);
    }
  }

  /** Clipping before the next decay changes nothing: the linear core of the closed form. */
  lemma ClipBeforeDecay(c: EpsilonConfig, power: real, epsilon: real, decayedPower: real, decayedEpsilon: real)
    requires 0.0 <= c.minimum && epsilon == Clip(c, power)
    requires 0.0 <= decayedPower <= power && 0.0 <= decayedEpsilon <= epsilon
    requires epsilon == power ==> decayedEpsilon == decayedPower
    ensures Clip(c, decayedEpsilon) == Clip(c, decayedPower)
  {
  }

  lemma NextOfClipped(c: EpsilonConfig, power: real, epsilon: real)
    requires CheckEpsilon(c).None? && 0.0 <= power && epsilon == Clip(c, power)
    ensures NextEpsilon(c, epsilon) == Clip(c, Decayed(power, c.decay))
  {
    DecayShrinks(power, c.decay);
    DecayShrinks(epsilon, c.decay);
    ClipBeforeDecay(c, power, epsilon, Decayed(power, c.decay), Decayed(epsilon, c.decay));
  }

  /** After n completed episodes epsilon is exactly the closed form. */
  lemma {:induction false} EpsilonIsClosedForm(c: EpsilonConfig, n: nat)
    requires CheckEpsilon(c).None?
    ensures EpsilonAfter(c, n) == ClosedForm(c, n)
  {
    if n == 1 {
      assert EpsilonAfter(c, 0) == Geometric(c.initial, c.decay, 0);
    } else if 1 < n {
      EpsilonIsClosedForm(c, n - 1);
      GeometricInRange(c.initial, c.decay, n - 1);
      NextOfClipped(c, Geometric(c.initial, c.decay, n - 1), EpsilonAfter(c, n - 1));
    }
  }

  // ---- The value, spelled out ----

  function Power(base: real, n: nat): real {
    if n == 0 then 1.0 else base * Power(base, n - 1)
  }

  lemma {:induction false} GeometricIsProduct(start: real, decay: real, n: nat)
    ensures Geometric(start, decay, n) == start * Power(decay, n)
  {
    if 0 < n {
      GeometricIsProduct(start, decay, n - 1);
      assert start * Power(decay, n - 1) * decay == start * (decay * Power(decay, n - 1));
    }
  }

  lemma ClipSpelledOut(c: EpsilonConfig, p: real)
    requires 0.0 <= c.minimum && 0.0 <= p
    ensures 0.0 < c.minimum ==> Clip(c, p) == if p < c.minimum then c.minimum else p
    ensures c.minimum == 0.0 ==> Clip(c, p) == if p < c.cutoff then 0.0 else p
  {
  }

  /**
   * After n episodes epsilon is the initial value decayed n times, unless that is below the floor: the minimum, or
   * the cutoff if the minimum is zero. Then it is the minimum.
   */
  lemma EpsilonSpelledOut(c: EpsilonConfig, n: nat, p: real)
    requires CheckEpsilon(c).None? && 0 < n && p == Geometric(c.initial, c.decay, n)
    ensures 0.0 < c.minimum ==> EpsilonAfter(c, n) == if p < c.minimum then c.minimum else p
    ensures c.minimum == 0.0 ==> EpsilonAfter(c, n) == if p < c.cutoff then 0.0 else p
  {
    GeometricInRange(c.initial, c.decay, n);
    EpsilonIsClosedForm(c, n);
    ClipSpelledOut(c, p);
  }

  lemma ClipInRange(c: EpsilonConfig, epsilon: real, decayed: real)
    requires 0.0 <= c.minimum <= epsilon && 0.0 <= decayed <= epsilon
    ensures c.minimum <= Clip(c, decayed) <= epsilon
  {
  }

  lemma NextInRange(c: EpsilonConfig, epsilon: real)
    requires CheckEpsilon(c).None? && c.minimum <= epsilon
    ensures c.minimum <= NextEpsilon(c, epsilon) <= epsilon
  {
    DecayShrinks(epsilon, c.decay);
    ClipInRange(c, epsilon, Decayed(epsilon, c.decay));
  }

  lemma {:induction false} EpsilonInRange(c: EpsilonConfig, n: nat)
    requires CheckEpsilon(c).None?
    ensures c.minimum <= EpsilonAfter(c, n) <= c.initial
  {
    if 0 < n {
      EpsilonInRange(c, n - 1);
      NextInRange(c, EpsilonAfter(c, n - 1));
    }
  }

  /** The schedule never rises and never leaves the range from the minimum to the initial value. */
  lemma EpsilonNeverIncreases(c: EpsilonConfig, n: nat)
    requires CheckEpsilon(c).None?
    ensures c.minimum <= EpsilonAfter(c, n + 1) <= EpsilonAfter(c, n) <= c.initial
  {
    EpsilonInRange(c, n);
    NextInRange(c, EpsilonAfter(c, n));
  }

  // ---- When the floor is reached ----

  predicate AtFloor(c: EpsilonConfig, epsilon: real) {
    epsilon <= c.minimum
  }

  /** The value below which the schedule stops: the minimum, or the cutoff when the minimum is zero. */
  function Floor(c: EpsilonConfig): real {
    if c.minimum == 0.0 then c.cutoff else c.minimum
  }

  /** Bernoulli: after n decays at most start / (1 + n * (1 - decay)) is left. */
  lemma {:induction false} BernoulliBound(start: real, decay: real, n: nat)
    requires 0.0 <= start && 0.0 < decay <= 1.0
    ensures Decayed(Geometric(start, decay, n), 1.0 + Repeat(n, 1.0 - decay)) <= start
  {
    if n == 0 {
      assert start * (1.0 + 0.0) == start;
    } else {
      BernoulliBound(start, decay, n - 1);
      GeometricInRange(start, decay, n - 1);
      RepeatNotNegative(n - 1, 1.0 - decay);
      BernoulliStep(start, decay, Geometric(start, decay, n - 1), Repeat(n - 1, 1.0 - decay));
    }
  }

  lemma {:induction false} RepeatNotNegative(n: nat, r: real)
    requires 0.0 <= r
    ensures 0.0 <= Repeat(n, r)
  {
    if 0 < n {
      RepeatNotNegative(n - 1, r);
    }
  }

  lemma BernoulliStep(start: real, decay: real, left: real, losses: real)
    requires 0.0 < decay <= 1.0 && 0.0 <= left && 0.0 <= losses
    requires Decayed(left, 1.0 + losses) <= start
    ensures Decayed(Decayed(left, decay), 1.0 + (1.0 - decay + losses)) <= start
  {
    var a, r := 1.0 + losses, 1.0 - decay;
    var factor := decay * (a + r);
    assert factor == a - r * (a - decay) by {
      assert decay * (a + r) == decay * a + decay * r;
      assert r * (a - decay) == r * a - r * decay;
      assert r * a == a - decay * a;
    }
    MultiplyMonotone(0.0, r, a - decay);
    MultiplyMonotone(factor, a, left);
    assert left * decay * (a + r) == factor * left;
    assert a * left == left * a;
  }

  /** An explicit number of episodes after which the floor has been reached. */
  function EpisodesToFloor(c: EpsilonConfig): int
    requires c.decay < 1.0 && 0.0 < Floor(c)
  {
    var step := Decayed(Floor(c), 1.0 - c.decay);
    if step == 0.0 then 0 else (c.initial / step).Floor + 1
  }

  lemma MultiplyStrict(a: real, b: real, f: real)
    requires a < b && 0.0 < f
    ensures a * f < b * f
  {
  }

  /** The Bernoulli bound read as a bound on what is left. */
  lemma BelowFloor(start: real, floor: real, left: real, losses: real)
    requires 0.0 < floor && 0.0 <= losses
    requires Decayed(left, 1.0 + losses) <= start
    requires start < Decayed(losses, floor)
    ensures left < floor
  {
    assert floor * (1.0 + losses) == floor + losses * floor;
    if floor <= left {
      MultiplyMonotone(floor, left, 1.0 + losses);
    }
  }

  lemma QuotientBelow(a: real, b: real, n: int)
    requires 0.0 < b && (a / b).Floor + 1 <= n
    ensures a < n as real * b
  {
    MultiplyStrict(a / b, n as real, b);
    assert a / b * b == a;
  }

  lemma LossesReachInitial(c: EpsilonConfig, n: nat)
    requires CheckEpsilon(c).None? && c.decay < 1.0 && 0.0 < Floor(c)
    requires EpisodesToFloor(c) <= n
    ensures c.initial < Decayed(Repeat(n, 1.0 - c.decay), Floor(c))
  {
    var r, step := 1.0 - c.decay, Decayed(Floor(c), 1.0 - c.decay);
    MultiplyStrict(0.0, Floor(c), r);
    QuotientBelow(c.initial, step, n);
    RepeatIsProduct(n, r);
    assert n as real * r * Floor(c) == n as real * step;
  }

  lemma ClipBelowFloor(c: EpsilonConfig, power: real)
    requires 0.0 <= c.minimum && power < Floor(c)
    ensures Clip(c, power) == c.minimum
  {
  }

  /** With decay below one and a positive minimum or cutoff, the floor is reached by the explicit episode and kept. */
  lemma FloorIsReached(c: EpsilonConfig, n: nat)
    requires CheckEpsilon(c).None? && c.decay < 1.0 && 0.0 < Floor(c)
    requires 0 < n && EpisodesToFloor(c) <= n
    ensures EpsilonAfter(c, n) == c.minimum && AtFloor(c, EpsilonAfter(c, n))
  {
    BernoulliBound(c.initial, c.decay, n);
    RepeatNotNegative(n, 1.0 - c.decay);
    LossesReachInitial(c, n);
    BelowFloor(c.initial, Floor(c), Geometric(c.initial, c.decay, n), Repeat(n, 1.0 - c.decay));
    EpsilonIsClosedForm(c, n);
    ClipBelowFloor(c, Geometric(c.initial, c.decay, n));
  }

  // ---- The component ----

  class EpsilonAlgo {
    const config: EpsilonConfig
    var epsilon: real
    var episodeInjections: nat
    var totalInjections: nat
    var episodes: nat
    var floorLogged: bool

    /** Epsilon is the schedule's value for the number of completed episodes. */
    ghost predicate Valid()
      reads this
    {
      && CheckEpsilon(config).None?
      && epsilon == EpsilonAfter(config, episodes)
      && episodeInjections <= totalInjections
      && (floorLogged ==> AtFloor(config, epsilon))
    }

    constructor Start(c: EpsilonConfig)
      requires CheckEpsilon(c).None?
      ensures Valid() && config == c && episodes == 0 && episodeInjections == 0 && totalInjections == 0
    {
      config := c;
      epsilon := c.initial;
      episodeInjections, totalInjections, episodes, floorLogged := 0, 0, 0, false;
    }

    /** Construction with the checks and their errors. */
    static method Create(c: EpsilonConfig) returns (r: Result<EpsilonAlgo, EpsilonError>)
      ensures r.Err? ==> CheckEpsilon(c) == Some(r.error)
      ensures r.Ok? ==> CheckEpsilon(c).None? && fresh(r.value) && r.value.Valid() && r.value.config == c
      ensures r.Ok? ==> r.value.episodes == 0 && r.value.totalInjections == 0
    {
      var problem := CheckEpsilon(c);
      if problem.Some? {
        return Err(problem.value);
      }
      var algorithm := new EpsilonAlgo.Start(c);
      r := Ok(algorithm);
    }

    /** `u` is the uniform draw and `pick` the random action; a draw below epsilon injects it and counts once. */
    method MaybeRandomAction(u: real, pick: nat) returns (action: Option<int>)
      requires Valid() && 0.0 <= u < 1.0 && pick < config.actionCount
      modifies this`episodeInjections, this`totalInjections
      ensures Valid()
      ensures action == if u < epsilon then Some(pick) else None
      ensures episodeInjections == old(episodeInjections) + (if action.Some? then 1 else 0)
      ensures totalInjections == old(totalInjections) + (if action.Some? then 1 else 0)
    {
      if u >= epsilon {
        return None;
      }
      episodeInjections := episodeInjections + 1;
      totalInjections := totalInjections + 1;
      action := Some(pick);
    }

    /** Advance the schedule by one episode; the floor is reported at most once. */
    method EpisodeCompleted() returns (current: real, reported: bool)
      requires Valid()
      modifies this
      ensures Valid()
      ensures episodes == old(episodes) + 1 && episodeInjections == 0 && totalInjections == old(totalInjections)
      ensures current == epsilon == EpsilonAfter(config, episodes)
      ensures
        var decayed := Decayed(old(epsilon), config.decay);
        && (0.0 < config.minimum ==> epsilon == if decayed < config.minimum then config.minimum else decayed)
        && (config.minimum == 0.0 ==> epsilon == if decayed < config.cutoff then 0.0 else decayed)
      ensures reported == (AtFloor(config, epsilon) && !old(floorLogged))
      ensures floorLogged == (old(floorLogged) || reported)
    {
      EpsilonNeverIncreases(config, episodes);
      DecayShrinks(epsilon, config.decay);
      episodes := episodes + 1;
      var held := RealMax(config.minimum, Decayed(epsilon, config.decay));
      if config.minimum == 0.0 && held < config.cutoff {
        held := 0.0;
      }
      assert held == NextEpsilon(config, epsilon);
      epsilon := held;
      episodeInjections := 0;
      reported := AtFloor(config, epsilon) && !floorLogged;
      if reported {
        floorLogged := true;
      }
      current := epsilon;
    }

    method Reset()
      requires Valid()
      modifies this
      ensures Valid() && episodes == 0 && episodeInjections == 0 && totalInjections == 0 && !floorLogged
    {
      epsilon := config.initial;
      episodeInjections, totalInjections, episodes, floorLogged := 0, 0, 0, false;
    }
  }
}
