/** The `GameEngine`'s fixed-timestep loop: a frame's elapsed time goes into an
    accumulator, and the state manager is advanced in whole steps of 1/60 s for as long as
    the accumulator holds one. */
module Engine {

  const FixedTimestep: real := 1.0 / 60.0

  /** How many whole steps an accumulator holding `acc` seconds pays out: the number of
      times the loop can take `FixedTimestep` away before less than one step is left. */
  function StepsFor(acc: real): (n: nat)
    ensures n == 0 <==> acc < FixedTimestep
    ensures acc - n as real * FixedTimestep < FixedTimestep
    ensures acc >= 0.0 ==> acc - n as real * FixedTimestep >= 0.0
    ensures n > 0 ==> acc - (n - 1) as real * FixedTimestep >= FixedTimestep
  {
    if acc < FixedTimestep then 0 else (acc * 60.0).Floor
  }

  /** Paying out one step leaves an accumulator that pays out one step fewer. */
  lemma StepsForTakeOne(acc: real)
    requires acc >= FixedTimestep
    ensures StepsFor(acc - FixedTimestep) + 1 == StepsFor(acc)
  {
    assert (acc - FixedTimestep) * 60.0 == acc * 60.0 - 1.0;
  }

  /** The repeated subtraction the loop performs, as a recursive reference. */
  function Drain(acc: real): (r: (nat, real))
    decreases if acc < FixedTimestep then 0 else (acc * 60.0).Floor
  {
    if acc < FixedTimestep then (0, acc)
    else
      StepsForTakeOne(acc);
      var d := Drain(acc - FixedTimestep);
      (d.0 + 1, d.1)
  }

  /** The closed form agrees with the repeated subtraction: the step count and what stays
      in the accumulator, whose sum with the steps paid out is what went in. */
  lemma {:induction false} DrainIsStepsFor(acc: real)
    ensures Drain(acc) == (StepsFor(acc), acc - StepsFor(acc) as real * FixedTimestep)
    decreases if acc < FixedTimestep then 0 else (acc * 60.0).Floor
  {
    if acc >= FixedTimestep {
      StepsForTakeOne(acc);
      DrainIsStepsFor(acc - FixedTimestep);
    }
  }

  function Repeat(x: real, n: nat): (r: seq<real>)
    ensures |r| == n && forall i :: 0 <= i < n ==> r[i] == x
  {
    if n == 0 then [] else Repeat(x, n - 1) + [x]
  }

  class GameEngine {
    var accumulator: real
    /** How often the input manager has been polled. */
    var inputUpdates: nat
    /** The timestep of every `state_manager.update` call so far, in order. */
    var stateUpdates: seq<real>
    var hasStateManager: bool

    /** `__init__`: an empty accumulator and no state manager yet. */
    constructor ()
      ensures accumulator == 0.0 && inputUpdates == 0 && stateUpdates == [] && !hasStateManager
    {
      accumulator := 0.0;
      inputUpdates := 0;
      stateUpdates := [];
      hasStateManager := false;
    }

    /** `set_state_manager`. */
    method SetStateManager()
      modifies this
      ensures hasStateManager
      ensures accumulator == old(accumulator) && inputUpdates == old(inputUpdates)
      ensures stateUpdates == old(stateUpdates)
    {
      hasStateManager := true;
    }

    /** `update`: one input poll, then as many fixed steps as the accumulator pays for,
        each handed to the state manager when there is one. */
    method Update(dt: real) returns (steps: nat)
      modifies this
      ensures steps == StepsFor(old(accumulator) + dt)
      ensures accumulator == old(accumulator) + dt - steps as real * FixedTimestep
      ensures inputUpdates == old(inputUpdates) + 1
      ensures hasStateManager == old(hasStateManager)
      ensures stateUpdates == old(stateUpdates) + if hasStateManager then Repeat(FixedTimestep, steps) else []
    {
      inputUpdates := inputUpdates + 1;
      accumulator := accumulator + dt;
      ghost var start := accumulator;
      ghost var before := stateUpdates;
      steps := 0;
      while accumulator >= FixedTimestep
        invariant accumulator == start - steps as real * FixedTimestep
        invariant steps + StepsFor(accumulator) == StepsFor(start)
        invariant inputUpdates == old(inputUpdates) + 1 && hasStateManager == old(hasStateManager)
        invariant stateUpdates == before + if hasStateManager then Repeat(FixedTimestep, steps) else []
        decreases StepsFor(accumulator)
      {
        StepsForTakeOne(accumulator);
        if hasStateManager {
          stateUpdates := stateUpdates + [FixedTimestep];
        }
        accumulator := accumulator - FixedTimestep;
        steps := steps + 1;
      }
    }
  }
}
