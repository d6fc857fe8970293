/**
 * blowout/plasma.py: the plasma parameters shared by the electrons and the
 * ions. The slice grid `xi_bubble` and the time step `dt` are fixed at
 * construction; only the completion timestamp changes afterwards, and reading
 * it never raises (unlike the Timestamp base class of the other objects).
 */
module Plasma {
  import opened Wrappers
  import opened Support
  import Formulas

  class PlasmaParams {
    const xiStart: real
    const xiEnd: real
    const dxi: real
    /** The plasma density `n_p`. */
    const np: real
    /** The longitudinal slices; `scisalt.numpy.linspacestep` is not modelled, so the grid is given. */
    const xiBubble: seq<real>
    /** The simulation time step. */
    const dt: real
    var stamp: Option<Time>

    constructor (xiStart: real, xiEnd: real, dxi: real, np: real, xiBubble: seq<real>)
      ensures this.xiStart == xiStart && this.xiEnd == xiEnd && this.dxi == dxi && this.np == np
      ensures this.xiBubble == xiBubble
      ensures dt * Formulas.C == dxi
      ensures NumSteps() == |xiBubble|
      ensures Timestamp() == None
    {
      this.xiStart := xiStart;
      this.xiEnd := xiEnd;
      this.dxi := dxi;
      this.np := np;
      this.xiBubble := xiBubble;
      this.dt := dxi / Formulas.C;
      stamp := None;
    }

    /** The number of slices of the simulation. */
    function NumSteps(): nat
    {
      |xiBubble|
    }

    /** The `timestamp` property: `None` until the simulation completes, and never an error. */
    function Timestamp(): Option<Time>
      reads this
    {
      stamp
    }

    method SetTimestamp(t: Time)
      modifies this
      ensures Timestamp() == Some(t)
    {
      stamp := Some(t);
    }
  }
}
