/**
  * The draft/validate retry loop of the builder (builder.py). The two graph
  * nodes and the router are pure functions over the threaded state record;
  * the graph itself is an explicit loop (`RunGraph`), specified by the
  * recursive `RunFrom`.
  *
  * The planning service is an oracle: it is asked with the attempt number
  * and the request, and answers either with a failure or with a list of ops.
  */
module Orchestrator {
  import opened Wrappers
  import opened Planning

  /** What one call of the planning service produced. */
  datatype DraftOutcome = Fail(reason: string) | Drafted(ops: seq<BlockOp>)

  /** The error recorded in the state: a planning failure or a validation failure. */
  datatype BuildError = PlanningFailed(reason: string) | Invalid(violation: PlanError)

  /** `BuilderState`: the record threaded through the nodes of the graph. */
  datatype BuilderState = BuilderState(
    prompt: string,
    boundsMin: Vec3,
    boundsMax: Vec3,
    size: Vec3,
    palette: seq<string>,
    maxBlocks: int,
    attempts: nat,
    plan: Option<seq<BlockOp>>,
    error: Option<BuildError>,
    lastError: Option<BuildError>)

  /**
    * The planning request `_compose_prompt` writes: the request text, the
    * plan-relative size, the palette, the block limit and, when a previous
    * error is recorded, that error as feedback (the `Previous error:` line).
    */
  datatype DraftRequest = DraftRequest(
    prompt: string,
    size: Vec3,
    palette: seq<string>,
    maxBlocks: int,
    previousError: Option<BuildError>)

  /** The planning service: attempt number (from 0) and request to outcome. */
  type Planner = (nat, DraftRequest) -> DraftOutcome

  datatype Route = Retry | Done

  /** The state `build` hands to the graph: no attempt yet, no plan, no error. */
  function InitialState(prompt: string, lo: Vec3, hi: Vec3, size: Vec3, palette: seq<string>, maxBlocks: int): BuilderState {
    BuilderState(prompt, lo, hi, size, palette, maxBlocks, 0, None, None, None)
  }

  /** Two states carry the same request inputs. */
  predicate SameInputs(a: BuilderState, b: BuilderState) {
    a.prompt == b.prompt && a.boundsMin == b.boundsMin && a.boundsMax == b.boundsMax
    && a.size == b.size && a.palette == b.palette && a.maxBlocks == b.maxBlocks
  }

  /**
    * `_compose_prompt`: the request carries the state's inputs, and the
    * error hint is present exactly when a last error is recorded.
    */
  function ComposeRequest(st: BuilderState): (req: DraftRequest)
    ensures req.prompt == st.prompt && req.size == st.size && req.palette == st.palette && req.maxBlocks == st.maxBlocks
    ensures req.previousError.Some? <==> st.lastError.Some?
    ensures req.previousError.Some? ==> req.previousError == st.lastError
  {
    DraftRequest(st.prompt, st.size, st.palette, st.maxBlocks, st.lastError)
  }

  /** `_draft_plan` given the planning service's outcome. */
  function DraftPlan(st: BuilderState, outcome: DraftOutcome): (next: BuilderState)
    ensures SameInputs(next, st)
    ensures next.attempts == st.attempts + 1
    ensures next.error == next.lastError
    ensures next.error.None? <==> outcome.Drafted?
    ensures outcome.Fail? ==> next.plan == Some([]) && next.error == Some(PlanningFailed(outcome.reason))
    ensures outcome.Drafted? ==> next.plan == Some(outcome.ops)
  {
    match outcome
    case Fail(reason) =>
      st.(attempts := st.attempts + 1, plan := Some([]),
          error := Some(PlanningFailed(reason)), lastError := Some(PlanningFailed(reason)))
    case Drafted(ops) =>
      st.(attempts := st.attempts + 1, plan := Some(ops), error := None, lastError := None)
  }

  /** The plan as `state.get("plan", [])` reads it. */
  function PlanOrEmpty(plan: Option<seq<BlockOp>>): seq<BlockOp> {
    if plan.Some? then plan.value else []
  }

  /** A validator result as the error the state records. */
  function AsBuildError(v: Option<PlanError>): Option<BuildError> {
    if v.Some? then Some(Invalid(v.value)) else None
  }

  /**
    * `_validate_plan_node`: a recorded error passes through without running
    * the validator; otherwise both error fields take the validator's result.
    */
  function ValidateNode(st: BuilderState): (next: BuilderState)
    ensures st.error.Some? ==> next == st
    ensures st.error.None? ==>
              && next.error == next.lastError
              && next.error == AsBuildError(ValidatePlan(PlanOrEmpty(st.plan), st.size, st.palette, st.maxBlocks))
              && next.plan == (if next.error.None? then Some(PlanOrEmpty(st.plan)) else st.plan)
              && next.attempts == st.attempts && SameInputs(next, st)
  {
    if st.error.Some? then st
    else
      var v := ValidatePlan(PlanOrEmpty(st.plan), st.size, st.palette, st.maxBlocks);
      if v.Some? then st.(error := Some(Invalid(v.value)), lastError := Some(Invalid(v.value)))
      else st.(plan := Some(PlanOrEmpty(st.plan)), error := None, lastError := None)
  }

  /** `_route_after_validate`: retry only an erroneous draft, and only below the retry limit. */
  function RouteAfterValidate(st: BuilderState, maxRetries: int): (route: Route)
    ensures route == Retry <==> st.error.Some? && st.attempts < maxRetries
  {
    if st.error.Some? && st.attempts < maxRetries then Retry else Done
  }

  /** The error one draft leaves behind, whatever the attempt: a planning or a validation error. */
  function OutcomeError(outcome: DraftOutcome, size: Vec3, palette: seq<string>, maxBlocks: int): Option<BuildError> {
    match outcome
    case Fail(reason) => Some(PlanningFailed(reason))
    case Drafted(ops) => AsBuildError(ValidatePlan(ops, size, palette, maxBlocks))
  }

  /** One pass through the graph: draft, then validate. */
  function Step(st: BuilderState, planner: Planner): (next: BuilderState)
    ensures SameInputs(next, st)
    ensures next.attempts == st.attempts + 1
    ensures next.error == next.lastError
    ensures next.error == OutcomeError(planner(st.attempts, ComposeRequest(st)), st.size, st.palette, st.maxBlocks)
    ensures next.plan.Some?
    ensures next.error.None? ==> planner(st.attempts, ComposeRequest(st)) == Drafted(next.plan.value)
  {
    ValidateNode(DraftPlan(st, planner(st.attempts, ComposeRequest(st))))
  }

  /** The number of drafts the router allows from zero attempts: `max(1, max_retries)`. */
  function Budget(maxRetries: int): nat {
    if maxRetries < 1 then 1 else maxRetries
  }

  /**
    * The graph run from `st`: the final state and the requests sent to the
    * planning service, in order.
    */
  function RunFrom(st: BuilderState, maxRetries: int, planner: Planner): (r: (BuilderState, seq<DraftRequest>))
    ensures |r.1| >= 1 && r.1[0] == ComposeRequest(st)
    ensures r.0.attempts == st.attempts + |r.1|
    decreases maxRetries - st.attempts
  {
    var next := Step(st, planner);
    if RouteAfterValidate(next, maxRetries) == Retry then
      var (fin, requests) := RunFrom(next, maxRetries, planner);
      (fin, [ComposeRequest(st)] + requests)
    else
      (next, [ComposeRequest(st)])
  }

  /** One draft of a run: retried, the run goes on from the new state; otherwise it ends there. */
  lemma RunFromStep(st: BuilderState, maxRetries: int, planner: Planner)
    ensures var next := Step(st, planner);
      var (fin, requests) := RunFrom(next, maxRetries, planner);
      RouteAfterValidate(next, maxRetries) == Retry ==>
        RunFrom(st, maxRetries, planner) == (fin, [ComposeRequest(st)] + requests)
    ensures var next := Step(st, planner);
      RouteAfterValidate(next, maxRetries) == Done ==> RunFrom(st, maxRetries, planner) == (next, [ComposeRequest(st)])
  {
  }

  /**
    * The shape of a run: one request per draft, the attempt counter counts
    * the drafts, the run stops within `max(st.attempts + 1, max_retries)`
    * attempts, and it stops with an error only once `max_retries` is reached.
    */
  lemma {:induction false} RunBounded(st: BuilderState, maxRetries: int, planner: Planner)
    ensures var (fin, requests) := RunFrom(st, maxRetries, planner);
      && |requests| >= 1
      && fin.attempts == st.attempts + |requests|
      && fin.attempts <= Max(st.attempts + 1, maxRetries)
      && (fin.error.Some? ==> fin.attempts >= maxRetries)
      && SameInputs(fin, st)
      && fin.error == fin.lastError
      && fin.plan.Some?
    decreases maxRetries - st.attempts
  {
    var next := Step(st, planner);
    if RouteAfterValidate(next, maxRetries) == Retry {
      RunBounded(next, maxRetries, planner);
    }
  }

  /**
    * Request `k + 1` carries, as its previous error, the error that draft `k`
    * (asked with request `k`) left behind, and that error is present.
    */
  predicate CarriesFeedback(requests: seq<DraftRequest>, k: nat, st: BuilderState, planner: Planner)
    requires k + 1 < |requests|
  {
    && requests[k + 1].previousError == OutcomeError(planner(st.attempts + k, requests[k]), st.size, st.palette, st.maxBlocks)
    && requests[k + 1].previousError.Some?
  }

  /** Feedback carried within the rest of a run is feedback carried one position later in the whole run. */
  lemma CarriesFeedbackShift(rest: seq<DraftRequest>, k: nat, next: BuilderState, st: BuilderState, planner: Planner)
    requires k + 1 < |rest|
    requires next.attempts == st.attempts + 1 && SameInputs(next, st)
    requires CarriesFeedback(rest, k, next, planner)
    ensures CarriesFeedback([ComposeRequest(st)] + rest, k + 1, st, planner)
  {
    var requests := [ComposeRequest(st)] + rest;
    assert requests[k + 2] == rest[k + 1] && requests[k + 1] == rest[k];
  }

  /** A retried draft hands its error to the next request. */
  lemma FirstFeedback(st: BuilderState, maxRetries: int, planner: Planner)
    requires RouteAfterValidate(Step(st, planner), maxRetries) == Retry
    ensures var requests := [ComposeRequest(st)] + RunFrom(Step(st, planner), maxRetries, planner).1;
      CarriesFeedback(requests, 0, st, planner)
  {
  }

  /** Every request of a run asks for the same build: the prompt, the size, the palette and the block limit. */
  lemma {:induction false} RequestsKeepInputs(st: BuilderState, maxRetries: int, planner: Planner)
    ensures var requests := RunFrom(st, maxRetries, planner).1;
      forall k :: 0 <= k < |requests| ==>
        requests[k].prompt == st.prompt && requests[k].size == st.size
        && requests[k].palette == st.palette && requests[k].maxBlocks == st.maxBlocks
    decreases maxRetries - st.attempts
  {
    var next := Step(st, planner);
    RunFromStep(st, maxRetries, planner);
    if RouteAfterValidate(next, maxRetries) == Retry {
      RequestsKeepInputs(next, maxRetries, planner);
      var rest := RunFrom(next, maxRetries, planner).1;
      var requests := [ComposeRequest(st)] + rest;
      forall k | 0 < k < |requests|
        ensures requests[k] == rest[k - 1]
      {
      }
    }
  }

  /**
    * Feedback: the first request carries the state's last error; request
    * `k + 1` carries the error left by draft `k`, which is never empty since
    * draft `k` was retried; the final error is the one left by the last draft.
    */
  lemma {:induction false} FeedbackPropagates(st: BuilderState, maxRetries: int, planner: Planner)
    ensures var (fin, requests) := RunFrom(st, maxRetries, planner);
      && |requests| >= 1
      && requests[0] == ComposeRequest(st)
      && (forall k :: 0 <= k < |requests| - 1 ==> CarriesFeedback(requests, k, st, planner))
      && fin.error == OutcomeError(planner(st.attempts + |requests| - 1, requests[|requests| - 1]), st.size, st.palette, st.maxBlocks)
    decreases maxRetries - st.attempts
  {
    var next := Step(st, planner);
    RunFromStep(st, maxRetries, planner);
    if RouteAfterValidate(next, maxRetries) == Retry {
      FeedbackPropagates(next, maxRetries, planner);
      var (fin, rest) := RunFrom(next, maxRetries, planner);
      var requests := [ComposeRequest(st)] + rest;
      forall k | 0 <= k < |requests| - 1
        ensures CarriesFeedback(requests, k, st, planner)
      {
        if k > 0 {
          CarriesFeedbackShift(rest, k - 1, next, st, planner);
        } else {
          FirstFeedback(st, maxRetries, planner);
        }
      }
      assert requests[|requests| - 1] == rest[|rest| - 1];
    }
  }

  /** A run ends without an error only on a plan the validator accepts, exactly as drafted. */
  lemma {:induction false} RunSucceedsOnValidPlan(st: BuilderState, maxRetries: int, planner: Planner)
    ensures var (fin, requests) := RunFrom(st, maxRetries, planner);
      fin.error.None? ==>
        && fin.plan.Some?
        && ValidatePlan(fin.plan.value, st.size, st.palette, st.maxBlocks).None?
        && |requests| >= 1
        && planner(st.attempts + |requests| - 1, requests[|requests| - 1]) == Drafted(fin.plan.value)
    decreases maxRetries - st.attempts
  {
    var next := Step(st, planner);
    if RouteAfterValidate(next, maxRetries) == Retry {
      RunSucceedsOnValidPlan(next, maxRetries, planner);
      RunBounded(next, maxRetries, planner);
    }
  }

  /** When every draft leaves an error, the run uses every attempt the router allows. */
  lemma {:induction false} FailingPlannerExhaustsRetries(st: BuilderState, maxRetries: int, planner: Planner)
    requires forall n: nat, req: DraftRequest ::
               OutcomeError(planner(n, req), st.size, st.palette, st.maxBlocks).Some?
    ensures var (fin, requests) := RunFrom(st, maxRetries, planner);
      fin.error.Some? && fin.attempts == Max(st.attempts + 1, maxRetries)
    decreases maxRetries - st.attempts
  {
    var next := Step(st, planner);
    if RouteAfterValidate(next, maxRetries) == Retry {
      FailingPlannerExhaustsRetries(next, maxRetries, planner);
    }
  }

  /**
    * From `build`'s initial state the planning service is asked between 1 and
    * `max(1, max_retries)` times (not `max_retries + 1`), and a run that
    * ends in an error has used exactly `max(1, max_retries)` drafts.
    */
  lemma DraftCount(prompt: string, lo: Vec3, hi: Vec3, size: Vec3, palette: seq<string>, maxBlocks: int,
                   maxRetries: int, planner: Planner)
    ensures var (fin, requests) := RunFrom(InitialState(prompt, lo, hi, size, palette, maxBlocks), maxRetries, planner);
      && 1 <= |requests| <= Budget(maxRetries)
      && fin.attempts == |requests|
      && (fin.error.Some? ==> |requests| == Budget(maxRetries))
      && requests[0].previousError.None?
  {
    var st := InitialState(prompt, lo, hi, size, palette, maxBlocks);
    RunBounded(st, maxRetries, planner);
    FeedbackPropagates(st, maxRetries, planner);
  }

  /**
    * The graph as an explicit loop: draft, validate, route, until the router
    * says done. Returns the final state and the requests sent, in order.
    */
  method RunGraph(init: BuilderState, maxRetries: int, planner: Planner)
    returns (fin: BuilderState, requests: seq<DraftRequest>)
    ensures (fin, requests) == RunFrom(init, maxRetries, planner)
    ensures |requests| >= 1 && fin.attempts == init.attempts + |requests|
    ensures fin.attempts <= Max(init.attempts + 1, maxRetries)
    ensures fin.error.Some? ==> fin.attempts >= maxRetries
    ensures fin.plan.Some?
    ensures fin.error.None? ==> ValidatePlan(fin.plan.value, init.size, init.palette, init.maxBlocks).None?
  {
    fin, requests := init, [];
    var route := Retry;
    assert requests + RunFrom(fin, maxRetries, planner).1 == RunFrom(fin, maxRetries, planner).1;
    while route == Retry
      invariant route == Retry ==>
                  RunFrom(init, maxRetries, planner) == (RunFrom(fin, maxRetries, planner).0, requests + RunFrom(fin, maxRetries, planner).1)
      invariant route == Done ==> RunFrom(init, maxRetries, planner) == (fin, requests)
      decreases if route == Retry then Max(maxRetries, fin.attempts + 1) - fin.attempts else 0
    {
      var request := ComposeRequest(fin);
      var outcome := planner(fin.attempts, request);
      ghost var before := fin;
      fin := ValidateNode(DraftPlan(fin, outcome));
      assert fin == Step(before, planner);
      RunFromStep(before, maxRetries, planner);
      route := RouteAfterValidate(fin, maxRetries);
      if route == Retry {
        assert requests + ([request] + RunFrom(fin, maxRetries, planner).1)
            == (requests + [request]) + RunFrom(fin, maxRetries, planner).1;
      }
      requests := requests + [request];
    }
    RunBounded(init, maxRetries, planner);
    RunSucceedsOnValidPlan(init, maxRetries, planner);
  }
}
