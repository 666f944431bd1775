/** What can go wrong around a run: an I/O error, a cancelled context, a killed process. Every
    fallible step asks first what becomes of it. */
module Faults {
  datatype Fate = Goes | Fails | Crashes

  class FaultPlan {
    var plan: seq<Fate>    // the fates of the next steps; a step beyond the plan goes through
    var crashed: bool      // the process is dead: no later step happens, clean-up code included
    const reliable: bool   // no step of this run fails

    constructor (plan: seq<Fate>, reliable: bool)
      ensures this.plan == plan && this.reliable == reliable && !crashed
    {
      this.plan, this.reliable, this.crashed := plan, reliable, false;
    }

    method Proceed() returns (ok: bool)
      modifies this
      ensures reliable ==> ok && crashed == old(crashed)
      ensures ok && !reliable ==> !crashed
      ensures old(crashed) ==> crashed && (ok ==> reliable)
    {
      ok := reliable;
      if !reliable && !crashed {
        var fate := if |plan| == 0 then Goes else plan[0];
        ok, crashed := fate.Goes?, fate.Crashes?;
      }
      if |plan| > 0 {
        plan := plan[1..];
      }
    }
  }
}
