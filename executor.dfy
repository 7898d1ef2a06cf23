/**
  * `_execute_plan` (builder.py): plan-relative ops become absolute
  * placements, issued in order through the client, with an optional move
  * before each placement and an optional read-back after it. The first
  * failure aborts the rest of the plan; nothing already placed is undone.
  *
  * The client is an object whose calls are appended to a log; what the
  * remote end answers is a function of the calls made before, so any
  * stateful world fits. Any call may raise (an error reply, a closed
  * connection); a raise leaves the call in the log and ends the plan.
  */
module Executor {
  import opened Wrappers
  import opened Planning
  import opened BlockIds

  /** One client call, with absolute coordinates. */
  datatype Call =
    | MoveTo(x: int, y: int, z: int)
    | PlaceBlock(x: int, y: int, z: int, block: string)
    | GetBlockAt(x: int, y: int, z: int)

  /**
    * What ends an execution: the two `RuntimeError`s `_execute_plan` raises
    * itself, and an exception raised by a client call.
    */
  datatype ExecError =
    | PlaceFailed(block: string, x: int, y: int, z: int)
    | VerifyFailed(x: int, y: int, z: int, expected: string, found: string)
    | CallRaised(call: Call)

  /**
    * The remote end, each answer given the calls already made: whether a
    * call raises, whether a placement succeeds, and which block id a read
    * reports.
    */
  datatype Remote = Remote(
    raises: (seq<Call>, Call) -> bool,
    place: (seq<Call>, Vec3, string) -> bool,
    read: (seq<Call>, Vec3) -> string)

  /** The options of one execution: the minimum corner and the two flags. */
  datatype ExecConfig = ExecConfig(base: Vec3, moveAgent: bool, verify: bool)

  /** The client used by the builder, as seen through the calls it makes. */
  class Client {
    var log: seq<Call>
    const remote: Remote

    constructor (remote: Remote)
      ensures log == [] && this.remote == remote
    {
      log := [];
      this.remote := remote;
    }

    /** `move_to`; `raised` when the call raises. */
    method MoveTo(x: int, y: int, z: int) returns (raised: bool)
      modifies this`log
      ensures raised == remote.raises(old(log), Call.MoveTo(x, y, z))
      ensures log == old(log) + [Call.MoveTo(x, y, z)]
    {
      raised := remote.raises(log, Call.MoveTo(x, y, z));
      log := log + [Call.MoveTo(x, y, z)];
    }

    /** `place_block`: the success flag, or `None` when the call raises. */
    method PlaceBlock(x: int, y: int, z: int, block: string) returns (ok: Option<bool>)
      modifies this`log
      ensures ok.None? <==> remote.raises(old(log), Call.PlaceBlock(x, y, z, block))
      ensures ok.Some? ==> ok.value == remote.place(old(log), Vec3(x, y, z), block)
      ensures log == old(log) + [Call.PlaceBlock(x, y, z, block)]
    {
      if remote.raises(log, Call.PlaceBlock(x, y, z, block)) {
        ok := None;
      } else {
        ok := Some(remote.place(log, Vec3(x, y, z), block));
      }
      log := log + [Call.PlaceBlock(x, y, z, block)];
    }

    /** `get_block_at`: the id read, or `None` when the call raises. */
    method GetBlockAt(x: int, y: int, z: int) returns (found: Option<string>)
      modifies this`log
      ensures found.None? <==> remote.raises(old(log), Call.GetBlockAt(x, y, z))
      ensures found.Some? ==> found.value == remote.read(old(log), Vec3(x, y, z))
      ensures log == old(log) + [Call.GetBlockAt(x, y, z)]
    {
      if remote.raises(log, Call.GetBlockAt(x, y, z)) {
        found := None;
      } else {
        found := Some(remote.read(log, Vec3(x, y, z)));
      }
      log := log + [Call.GetBlockAt(x, y, z)];
    }
  }

  /** The read-back check as written: the bare id or the id with the namespace added in front. */
  predicate VerifyMatches(found: string, block: string) {
    found == block || found == Namespace + block
  }

  /** Where op `op` is placed: its offset added to the minimum corner. */
  function Target(op: BlockOp, cfg: ExecConfig): Vec3 {
    Add(cfg.base, Offset(op))
  }

  /** The move two blocks above the target. */
  function MoveCall(op: BlockOp, cfg: ExecConfig): Call {
    var p := Target(op, cfg);
    Call.MoveTo(p.x, p.y + 2, p.z)
  }

  function PlaceCall(op: BlockOp, cfg: ExecConfig): Call {
    var p := Target(op, cfg);
    Call.PlaceBlock(p.x, p.y, p.z, op.block)
  }

  function ReadCall(op: BlockOp, cfg: ExecConfig): Call {
    var p := Target(op, cfg);
    Call.GetBlockAt(p.x, p.y, p.z)
  }

  /** The log when an op's placement is sent: after the move, when there is one. */
  function BeforePlace(log: seq<Call>, op: BlockOp, cfg: ExecConfig): seq<Call> {
    if cfg.moveAgent then log + [MoveCall(op, cfg)] else log
  }

  /** The log when an op's read-back is sent: after the placement. */
  function BeforeRead(log: seq<Call>, op: BlockOp, cfg: ExecConfig): seq<Call> {
    BeforePlace(log, op, cfg) + [PlaceCall(op, cfg)]
  }

  /** The calls one op makes when nothing raises and it neither fails to place nor fails to verify. */
  function OpCalls(op: BlockOp, cfg: ExecConfig): seq<Call> {
    (if cfg.moveAgent then [MoveCall(op, cfg)] else [])
    + [PlaceCall(op, cfg)]
    + (if cfg.verify then [ReadCall(op, cfg)] else [])
  }

  /** The calls of a run of ops that all succeed, in order. */
  function AllCalls(ops: seq<BlockOp>, cfg: ExecConfig): seq<Call> {
    if ops == [] then [] else OpCalls(ops[0], cfg) + AllCalls(ops[1..], cfg)
  }

  /**
    * One iteration of the loop, from the log `log`: the new log and the
    * error that stops the plan, if any. A call that raises is logged too.
    */
  function ExecOp(log: seq<Call>, op: BlockOp, cfg: ExecConfig, remote: Remote): (r: (seq<Call>, Option<ExecError>))
    ensures log < r.0 && |r.0| <= |log| + |OpCalls(op, cfg)|
  {
    var p := Target(op, cfg);
    var log1 := BeforePlace(log, op, cfg);
    var log2 := BeforeRead(log, op, cfg);
    if cfg.moveAgent && remote.raises(log, MoveCall(op, cfg)) then
      (log1, Some(CallRaised(MoveCall(op, cfg))))
    else if remote.raises(log1, PlaceCall(op, cfg)) then
      (log2, Some(CallRaised(PlaceCall(op, cfg))))
    else if !remote.place(log1, p, op.block) then
      (log2, Some(PlaceFailed(op.block, p.x, p.y, p.z)))
    else if cfg.verify then
      var log3 := log2 + [ReadCall(op, cfg)];
      if remote.raises(log2, ReadCall(op, cfg)) then
        (log3, Some(CallRaised(ReadCall(op, cfg))))
      else
        var found := remote.read(log2, p);
        if !VerifyMatches(found, op.block) then
          (log3, Some(VerifyFailed(p.x, p.y, p.z, op.block, found)))
        else
          (log3, None)
    else
      (log2, None)
  }

  /**
    * When one op goes through: no call raises, the remote accepts the
    * placement, and, with `verify`, the read-back is the block with or
    * without the namespace.
    */
  predicate OpSucceeds(log: seq<Call>, op: BlockOp, cfg: ExecConfig, remote: Remote) {
    && (cfg.moveAgent ==> !remote.raises(log, MoveCall(op, cfg)))
    && !remote.raises(BeforePlace(log, op, cfg), PlaceCall(op, cfg))
    && remote.place(BeforePlace(log, op, cfg), Target(op, cfg), op.block)
    && (cfg.verify ==>
          && !remote.raises(BeforeRead(log, op, cfg), ReadCall(op, cfg))
          && VerifyMatches(remote.read(BeforeRead(log, op, cfg), Target(op, cfg)), op.block))
  }

  /** The logs at each call of an op, as prefixes of the log plus the op's calls. */
  lemma OpLogs(log: seq<Call>, op: BlockOp, cfg: ExecConfig)
    ensures BeforePlace(log, op, cfg) == log + OpCalls(op, cfg)[..(if cfg.moveAgent then 1 else 0)]
    ensures BeforeRead(log, op, cfg) == log + OpCalls(op, cfg)[..(if cfg.moveAgent then 2 else 1)]
    ensures cfg.moveAgent ==> BeforePlace(log, op, cfg)[..|log|] == log
    ensures BeforeRead(log, op, cfg)[..|BeforeRead(log, op, cfg)| - 1] == BeforePlace(log, op, cfg)
    ensures !cfg.verify ==> BeforeRead(log, op, cfg) == log + OpCalls(op, cfg)
    ensures cfg.verify ==> BeforeRead(log, op, cfg) + [ReadCall(op, cfg)] == log + OpCalls(op, cfg)
  {
    var move: seq<Call> := if cfg.moveAgent then [MoveCall(op, cfg)] else [];
    var read: seq<Call> := if cfg.verify then [ReadCall(op, cfg)] else [];
    var calls := OpCalls(op, cfg);
    assert calls == move + [PlaceCall(op, cfg)] + read;
    assert calls[..|move|] == move;
    assert calls[..|move| + 1] == move + [PlaceCall(op, cfg)];
  }

  /**
    * What one op does to the log: it goes through exactly when `OpSucceeds`,
    * and then adds exactly its calls (the move above the target first, when
    * asked); a failing op adds a prefix of them.
    */
  lemma ExecOpCalls(log: seq<Call>, op: BlockOp, cfg: ExecConfig, remote: Remote)
    ensures ExecOp(log, op, cfg, remote).1.None? <==> OpSucceeds(log, op, cfg, remote)
    ensures var (log', err) := ExecOp(log, op, cfg, remote);
      && (err.None? ==> log' == log + OpCalls(op, cfg))
      && (err.Some? ==> |log| < |log'| <= |log| + |OpCalls(op, cfg)| && log' == log + OpCalls(op, cfg)[..|log'| - |log|])
  {
    OpLogs(log, op, cfg);
  }

  /** An op that fails by a raise: the last call it logged is the one that raised. */
  lemma ExecOpRaised(log: seq<Call>, op: BlockOp, cfg: ExecConfig, remote: Remote)
    ensures var (log', err) := ExecOp(log, op, cfg, remote);
      err.Some? && err.value.CallRaised? ==>
        && log'[|log'| - 1] == err.value.call
        && remote.raises(log'[..|log'| - 1], err.value.call)
  {
    OpLogs(log, op, cfg);
    var log1 := BeforePlace(log, op, cfg);
    var log2 := BeforeRead(log, op, cfg);
    if cfg.moveAgent && remote.raises(log, MoveCall(op, cfg)) {
      assert ExecOp(log, op, cfg, remote) == (log1, Some(CallRaised(MoveCall(op, cfg))));
    } else if remote.raises(log1, PlaceCall(op, cfg)) {
      assert ExecOp(log, op, cfg, remote) == (log2, Some(CallRaised(PlaceCall(op, cfg))));
    } else if remote.place(log1, Target(op, cfg), op.block) && cfg.verify {
      var log3 := log2 + [ReadCall(op, cfg)];
      assert log3[..|log3| - 1] == log2;
    }
  }

  /** An op that fails because the remote refused the placement: that placement is the last call. */
  lemma ExecOpPlaceFailed(log: seq<Call>, op: BlockOp, cfg: ExecConfig, remote: Remote)
    ensures var (log', err) := ExecOp(log, op, cfg, remote);
      var p := Target(op, cfg);
      err.Some? && err.value.PlaceFailed? ==>
        && err.value == PlaceFailed(op.block, p.x, p.y, p.z)
        && log'[|log'| - 1] == Call.PlaceBlock(p.x, p.y, p.z, op.block)
        && !remote.raises(log'[..|log'| - 1], log'[|log'| - 1])
        && !remote.place(log'[..|log'| - 1], p, op.block)
  {
    OpLogs(log, op, cfg);
    var log1 := BeforePlace(log, op, cfg);
    if !(cfg.moveAgent && remote.raises(log, MoveCall(op, cfg))) && !remote.raises(log1, PlaceCall(op, cfg))
      && !remote.place(log1, Target(op, cfg), op.block)
    {
      var p := Target(op, cfg);
      assert ExecOp(log, op, cfg, remote) == (BeforeRead(log, op, cfg), Some(PlaceFailed(op.block, p.x, p.y, p.z)));
    }
  }

  /**
    * An op that fails verification: all of its calls were made, and the
    * block read back after the placement is neither the block nor the block
    * with the namespace in front.
    */
  lemma ExecOpVerifyFailed(log: seq<Call>, op: BlockOp, cfg: ExecConfig, remote: Remote)
    ensures var (log', err) := ExecOp(log, op, cfg, remote);
      var p := Target(op, cfg);
      err.Some? && err.value.VerifyFailed? ==>
        && cfg.verify
        && log' == log + OpCalls(op, cfg)
        && err.value == VerifyFailed(p.x, p.y, p.z, op.block, err.value.found)
        && err.value.found == remote.read(log'[..|log'| - 1], p)
        && !VerifyMatches(err.value.found, op.block)
  {
    OpLogs(log, op, cfg);
    var log2 := BeforeRead(log, op, cfg);
    var log3 := log2 + [ReadCall(op, cfg)];
    assert log3[..|log3| - 1] == log2;
  }


  /** The loop of `_execute_plan` from op `i` on: stops at the first error. */
  function ExecFrom(log: seq<Call>, plan: seq<BlockOp>, i: nat, cfg: ExecConfig, remote: Remote): (r: (seq<Call>, Option<ExecError>))
    requires i <= |plan|
    ensures log <= r.0
    ensures i < |plan| ==> log < r.0
    decreases |plan| - i
  {
    if i == |plan| then (log, None)
    else
      var (log', err) := ExecOp(log, plan[i], cfg, remote);
      if err.Some? then (log', err) else ExecFrom(log', plan, i + 1, cfg, remote)
  }

  /** A plan that runs through makes every op's calls, in plan order, and nothing else. */
  lemma {:induction false} ExecSucceeds(log: seq<Call>, plan: seq<BlockOp>, i: nat, cfg: ExecConfig, remote: Remote)
    requires i <= |plan|
    ensures ExecFrom(log, plan, i, cfg, remote).1.None? ==>
              ExecFrom(log, plan, i, cfg, remote).0 == log + AllCalls(plan[i..], cfg)
    decreases |plan| - i
  {
    if i < |plan| {
      var step := ExecOp(log, plan[i], cfg, remote);
      if step.1.None? {
        ExecSucceeds(step.0, plan, i + 1, cfg, remote);
        ExecOpCalls(log, plan[i], cfg, remote);
        AllCallsStep(log, plan, i, |plan|, cfg);
        assert plan[i..|plan|] == plan[i..] && plan[i + 1..|plan|] == plan[i + 1..];
      }
    } else {
      assert plan[i..] == [];
    }
  }

  /** The index of the op at which a run from op `i` stops (`|plan|` when none fails). */
  function StopIndex(log: seq<Call>, plan: seq<BlockOp>, i: nat, cfg: ExecConfig, remote: Remote): nat
    requires i <= |plan|
    decreases |plan| - i
  {
    if i == |plan| then i
    else
      var step := ExecOp(log, plan[i], cfg, remote);
      if step.1.Some? then i else StopIndex(step.0, plan, i + 1, cfg, remote)
  }

  /**
    * A plan that fails stops at op `k = StopIndex(..)`: ops before `k` made
    * all their calls, op `k` failed and made only what `ExecOp` says, and no
    * op after `k` made any call.
    */
  lemma {:induction false} ExecStopsAtFirstFailure(log: seq<Call>, plan: seq<BlockOp>, i: nat, cfg: ExecConfig, remote: Remote)
    requires i <= |plan|
    ensures var k := StopIndex(log, plan, i, cfg, remote);
      ExecFrom(log, plan, i, cfg, remote).1.Some? ==>
        && i <= k < |plan|
        && ExecFrom(log, plan, i, cfg, remote) == ExecOp(log + AllCalls(plan[i..k], cfg), plan[k], cfg, remote)
    decreases |plan| - i
  {
    if i < |plan| {
      var step := ExecOp(log, plan[i], cfg, remote);
      if step.1.Some? {
        assert AllCalls(plan[i..i], cfg) == [];
        assert log + AllCalls(plan[i..i], cfg) == log;
      } else {
        var k := StopIndex(step.0, plan, i + 1, cfg, remote);
        ExecStopsAtFirstFailure(step.0, plan, i + 1, cfg, remote);
        if ExecFrom(step.0, plan, i + 1, cfg, remote).1.Some? {
          ExecOpCalls(log, plan[i], cfg, remote);
          AllCallsStep(log, plan, i, k, cfg);
        }
      }
    }
  }

  /** The calls of ops `i` to `k` are those of op `i` followed by those of the rest. */
  lemma AllCallsStep(log: seq<Call>, plan: seq<BlockOp>, i: nat, k: nat, cfg: ExecConfig)
    requires i < k <= |plan|
    ensures (log + OpCalls(plan[i], cfg)) + AllCalls(plan[i + 1..k], cfg) == log + AllCalls(plan[i..k], cfg)
  {
    assert plan[i..k][0] == plan[i] && plan[i..k][1..] == plan[i + 1..k];
    assert AllCalls(plan[i..k], cfg) == OpCalls(plan[i], cfg) + AllCalls(plan[i + 1..k], cfg);
  }

  /** Once a plan fails, the ops that follow it change nothing: no call is made for them. */
  lemma {:induction false} LaterOpsIgnoredAfterFailure(log: seq<Call>, plan: seq<BlockOp>, more: seq<BlockOp>, i: nat,
                                                       cfg: ExecConfig, remote: Remote)
    requires i <= |plan|
    requires ExecFrom(log, plan, i, cfg, remote).1.Some?
    ensures ExecFrom(log, plan + more, i, cfg, remote) == ExecFrom(log, plan, i, cfg, remote)
    decreases |plan| - i
  {
    assert (plan + more)[i] == plan[i];
    var (log', err) := ExecOp(log, plan[i], cfg, remote);
    if err.None? {
      LaterOpsIgnoredAfterFailure(log', plan, more, i + 1, cfg, remote);
    }
  }

  /**
    * `_execute_plan` on the client: the calls it makes and the error it
    * raises are those of `ExecFrom` from the first op.
    */
  method ExecutePlan(client: Client, plan: seq<BlockOp>, cfg: ExecConfig) returns (err: Option<ExecError>)
    modifies client
    ensures (client.log, err) == ExecFrom(old(client.log), plan, 0, cfg, client.remote)
  {
    for i := 0 to |plan|
      invariant ExecFrom(client.log, plan, i, cfg, client.remote) == ExecFrom(old(client.log), plan, 0, cfg, client.remote)
    {
      err := ExecuteOp(client, plan[i], cfg);
      if err.Some? {
        return;
      }
    }
    return None;
  }

  /** One step of the loop above: move, place and optionally read back a single operation. */
  method ExecuteOp(client: Client, op: BlockOp, cfg: ExecConfig) returns (err: Option<ExecError>)
    modifies client
    ensures (client.log, err) == ExecOp(old(client.log), op, cfg, client.remote)
  {
    var x, y, z := cfg.base.x + op.x, cfg.base.y + op.y, cfg.base.z + op.z;
    ghost var start := client.log;
    assert Vec3(x, y, z) == Target(op, cfg);
    OpLogs(start, op, cfg);
    if cfg.moveAgent {
      var raised := client.MoveTo(x, y + 2, z);
      if raised {
        return Some(CallRaised(Call.MoveTo(x, y + 2, z)));
      }
    }
    var success := client.PlaceBlock(x, y, z, op.block);
    if success.None? {
      return Some(CallRaised(Call.PlaceBlock(x, y, z, op.block)));
    }
    assert client.log == BeforeRead(start, op, cfg);
    if !success.value {
      return Some(PlaceFailed(op.block, x, y, z));
    }
    if cfg.verify {
      var found := client.GetBlockAt(x, y, z);
      if found.None? {
        return Some(CallRaised(Call.GetBlockAt(x, y, z)));
      }
      if !VerifyMatches(found.value, op.block) {
        return Some(VerifyFailed(x, y, z, op.block, found.value));
      }
    }
    return None;
  }
}
