/**
  * The `Builder` class of builder.py: normalise the inputs, run the
  * draft/validate loop, and execute the accepted plan through the client.
  */
module Builder {
  import opened Wrappers
  import opened Planning
  import opened Orchestrator
  import opened Executor

  /** Why `build` raised. */
  datatype BuildFailure =
    | BadPalette(paletteError: PaletteError)
    | PlanRejected(planError: BuildError)
    | ExecutionFailed(execError: ExecError)

  class Builder {
    const client: Client
    const maxBlocks: int
    const maxRetries: int
    /** The planning service the builder asks for drafts. */
    const planner: Planner

    constructor (client: Client, planner: Planner, maxBlocks: int := 600, maxRetries: int := 2)
      ensures this.client == client && this.planner == planner
      ensures this.maxBlocks == maxBlocks && this.maxRetries == maxRetries
    {
      this.client := client;
      this.planner := planner;
      this.maxBlocks := maxBlocks;
      this.maxRetries := maxRetries;
    }

    /** The graph's final state for the normalised inputs. */
    function Planned(prompt: string, a: Vec3, b: Vec3, palette: seq<string>): BuilderState {
      var (lo, hi) := NormalizeBounds(a, b);
      RunFrom(InitialState(prompt, lo, hi, SizeFromBounds(lo, hi), NormalizedEntries(palette), maxBlocks),
              maxRetries, planner).0
    }

    /**
      * `build`: a refused palette or a plan still in error after the loop
      * raises before any client call; otherwise the accepted plan is executed
      * from the minimum corner and returned if execution does not fail.
      */
    method Build(prompt: string, cornerA: Vec3, cornerB: Vec3, palette: seq<string>,
                 moveAgent: bool := true, verify: bool := false)
      returns (r: Result<seq<BlockOp>, BuildFailure>)
      modifies client
      ensures !PaletteAccepted(palette) ==> r.Err? && r.error.BadPalette? && client.log == old(client.log)
      ensures var fin := Planned(prompt, cornerA, cornerB, palette);
        PaletteAccepted(palette) && fin.error.Some? ==>
          r == Err(PlanRejected(fin.error.value)) && client.log == old(client.log)
      ensures var fin := Planned(prompt, cornerA, cornerB, palette);
        PaletteAccepted(palette) && fin.error.None? ==>
          && fin.plan.Some?
          && var exec := ExecFrom(old(client.log), fin.plan.value, 0,
                                  ExecConfig(NormalizeBounds(cornerA, cornerB).0, moveAgent, verify), client.remote);
          && client.log == exec.0
          && r == (if exec.1.None? then Ok(fin.plan.value) else Err(ExecutionFailed(exec.1.value)))
      ensures r.Ok? ==>
        var (lo, hi) := NormalizeBounds(cornerA, cornerB);
        ValidatePlan(r.value, SizeFromBounds(lo, hi), NormalizedEntries(palette), maxBlocks).None?
    {
      var (lo, hi) := NormalizeBounds(cornerA, cornerB);
      var size := SizeFromBounds(lo, hi);
      var normalized := NormalizePalette(palette);
      if normalized.Err? {
        return Err(BadPalette(normalized.error));
      }
      var state := InitialState(prompt, lo, hi, size, normalized.value, maxBlocks);
      var fin, _ := RunGraph(state, maxRetries, planner);
      if fin.error.Some? {
        return Err(PlanRejected(fin.error.value));
      }
      var plan := fin.plan.value;
      var err := ExecutePlan(client, plan, ExecConfig(lo, moveAgent, verify));
      if err.Some? {
        return Err(ExecutionFailed(err.value));
      }
      return Ok(plan);
    }
  }
}
