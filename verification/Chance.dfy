/** What the model leaves open: the random generators, the network and the operator. */
module Chance {
  import opened ReplayBuffer
  import opened ReplayWindows

  /** An index for a random choice. */
  method Index() returns (draw: nat)
  {
    draw := *;
  }

  /** A choice among `count` alternatives. */
  method IndexBelow(count: nat) returns (pick: nat)
    requires 0 < count
    ensures pick < count
  {
    pick := *;
    if count <= pick {
      pick := 0;
    }
  }

  /** A uniform draw. */
  method Uniform() returns (u: real)
    ensures 0.0 <= u < 1.0
  {
    u := *;
    if u < 0.0 || 1.0 <= u {
      u := 0.0;
    }
  }

  function Clamped(answers: seq<Obs> -> nat, outputs: nat): seq<Obs> -> nat {
    history => if answers(history) < outputs then answers(history) else 0
  }

  /** The greedy choice of a network with `outputs` outputs for every history, whatever its weights are by now. */
  method Network(outputs: nat) returns (policy: seq<Obs> -> nat)
    requires 0 < outputs
    ensures forall history :: policy(history) < outputs
  {
    var answers: seq<Obs> -> nat := *;
    policy := Clamped(answers, outputs);
  }

  /** A draw without replacement of `count` numbers below `total`, in any order. */
  method SampleIds(total: nat, count: nat) returns (ids: seq<nat>)
    requires count <= total
    ensures IsSample(ids, total, count)
  {
    ids := *;
    if !IsSample(ids, total, count) {
      ids := seq(count, i => i);
    }
  }

  method Loss() returns (loss: real)
  {
    loss := *;
  }
}
