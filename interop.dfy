/**
  * The builder's client talking to the listener: the read-back check of
  * `_execute_plan` (builder.py) against the replies of `place_block` and
  * `get_block_at` (listener.py).
  */
module Interop {
  import opened Wrappers
  import opened Planning
  import opened BlockIds
  import opened Executor

  /** The block most recently placed at `p` by the calls in `log`, if any. */
  function LastPlaced(log: seq<Call>, p: Vec3): Option<string>
    decreases |log|
  {
    if log == [] then None
    else
      match log[|log| - 1]
      case PlaceBlock(x, y, z, block) =>
        if Vec3(x, y, z) == p then Some(block) else LastPlaced(log[..|log| - 1], p)
      case _ => LastPlaced(log[..|log| - 1], p)
  }

  /**
    * The listener as the builder's client sees it when no game call fails:
    * no call raises, every placement is reported successful and places the
    * namespaced id, and a read reports the simple name of what was last
    * placed there (air where nothing was).
    */
  function ListenerRemote(): (r: Remote)
    ensures forall log, c :: !r.raises(log, c)
    ensures forall log, p, block :: r.place(log, p, block)
    ensures forall log, p :: ':' !in r.read(log, p)
  {
    ListenerReadsHaveNoColon();
    Remote((log: seq<Call>, c: Call) => false, (log: seq<Call>, p: Vec3, block: string) => true, ListenerRead)
  }

  /** What `get_block_at` reports at `p` after the calls in `log`. */
  function ListenerRead(log: seq<Call>, p: Vec3): string {
    SimpleName(if LastPlaced(log, p).Some? then PlaceTarget(LastPlaced(log, p).value) else Namespace + "air")
  }

  /** A read placed right after a placement at the same position reports that block's simple name. */
  lemma ListenerReadsPlaced(log: seq<Call>, p: Vec3, block: string)
    ensures ListenerRead(log + [Call.PlaceBlock(p.x, p.y, p.z, block)], p) == SimpleName(PlaceTarget(block))
  {
    var log' := log + [Call.PlaceBlock(p.x, p.y, p.z, block)];
    assert log'[|log'| - 1] == Call.PlaceBlock(p.x, p.y, p.z, block);
  }

  /** Whatever the listener reads back carries no colon. */
  lemma ListenerReadHasNoColon(log: seq<Call>, p: Vec3)
    ensures ':' !in ListenerRead(log, p)
  {
    var placed := if LastPlaced(log, p).Some? then PlaceTarget(LastPlaced(log, p).value) else Namespace + "air";
    assert Namespace <= placed;
  }

  lemma ListenerReadsHaveNoColon()
    ensures forall log, p :: ':' !in ListenerRead(log, p)
  {
    forall log, p
      ensures ':' !in ListenerRead(log, p)
    {
      ListenerReadHasNoColon(log, p);
    }
  }

  /**
    * Whatever raw id the game reports, the simple name `get_block_at`
    * answers with never passes the builder's check for a namespaced block.
    */
  lemma SimpleNameNeverMatches(raw: string, block: string)
    requires Namespace <= block
    ensures !VerifyMatches(SimpleName(raw), block)
  {
    if Namespace <= raw {
      NoColonNeverMatches(SimpleName(raw), block);
    } else {
      assert Namespace <= Namespace + block;
    }
  }

  /** A read-back without a colon is neither a namespaced id nor one with the namespace added. */
  lemma NoColonNeverMatches(found: string, block: string)
    requires ':' !in found && Namespace <= block
    ensures !VerifyMatches(found, block)
  {
    assert block[9] == ':';
    assert (Namespace + block)[9] == ':';
  }

  /** The builder's check therefore refuses every read-back of a namespaced block from the listener. */
  lemma ListenerReadNeverMatches(log: seq<Call>, p: Vec3, block: string)
    requires Namespace <= block
    ensures !VerifyMatches(ListenerRead(log, p), block)
  {
    var placed := if LastPlaced(log, p).Some? then PlaceTarget(LastPlaced(log, p).value) else Namespace + "air";
    SimpleNameNeverMatches(placed, block);
  }

  /**
    * One verified op against a remote that accepts the placement and then
    * reads back an id the read-back check refuses: all of the op's calls are made and
    * the op fails verification with what was read after the placement.
    */
  lemma VerifiedOpFails(log: seq<Call>, op: BlockOp, cfg: ExecConfig, remote: Remote)
    requires cfg.verify
    requires forall l, c :: !remote.raises(l, c)
    requires forall l :: remote.place(l, Target(op, cfg), op.block)
    requires forall l :: !VerifyMatches(remote.read(l, Target(op, cfg)), op.block)
    ensures var p := Target(op, cfg);
      var log' := log + OpCalls(op, cfg);
      ExecOp(log, op, cfg, remote) ==
        (log', Some(VerifyFailed(p.x, p.y, p.z, op.block, remote.read(log'[..|log'| - 1], p))))
  {
    ExecOpCalls(log, op, cfg, remote);
    ExecOpVerifyFailed(log, op, cfg, remote);
  }

  /** With verification on, what the listener reads back after an op is the simple name of the op's block. */
  lemma ListenerReadAfterOp(log: seq<Call>, op: BlockOp, cfg: ExecConfig)
    requires cfg.verify
    ensures var log' := log + OpCalls(op, cfg);
      ListenerRead(log'[..|log'| - 1], Target(op, cfg)) == SimpleName(PlaceTarget(op.block))
  {
    var p := Target(op, cfg);
    var move: seq<Call> := if cfg.moveAgent then [Call.MoveTo(p.x, p.y + 2, p.z)] else [];
    var place := Call.PlaceBlock(p.x, p.y, p.z, op.block);
    assert OpCalls(op, cfg) == move + [place] + [Call.GetBlockAt(p.x, p.y, p.z)];
    var log' := log + OpCalls(op, cfg);
    assert log'[..|log'| - 1] == (log + move) + [place];
    ListenerReadsPlaced(log + move, p, op.block);
  }

  /** Against the listener, every read-back of a namespaced block is refused. */
  lemma ListenerRefuses(op: BlockOp, cfg: ExecConfig)
    requires Namespace <= op.block
    ensures forall l :: ListenerRemote().place(l, Target(op, cfg), op.block)
    ensures forall l :: !VerifyMatches(ListenerRemote().read(l, Target(op, cfg)), op.block)
  {
    forall l
      ensures !VerifyMatches(ListenerRemote().read(l, Target(op, cfg)), op.block)
    {
      ListenerReadNeverMatches(l, Target(op, cfg), op.block);
    }
  }

  /**
    * A verified execution against the listener stops at the first op of
    * any plan whose first block carries the namespace (as every block of a
    * validated plan does): the block is placed, its simple name is read
    * back, and the read-back check refuses it.
    */
  lemma VerifiedExecutionFailsOnListener(log: seq<Call>, plan: seq<BlockOp>, cfg: ExecConfig)
    requires cfg.verify
    requires |plan| > 0 && Namespace <= plan[0].block
    ensures var p := Target(plan[0], cfg);
      ExecFrom(log, plan, 0, cfg, ListenerRemote()) ==
        (log + OpCalls(plan[0], cfg),
         Some(VerifyFailed(p.x, p.y, p.z, plan[0].block, SimpleName(PlaceTarget(plan[0].block)))))
  {
    ListenerRefuses(plan[0], cfg);
    VerifiedOpFails(log, plan[0], cfg, ListenerRemote());
    ListenerReadAfterOp(log, plan[0], cfg);
  }

  /** Every block of a plan validated against a normalised palette carries the namespace. */
  lemma ValidatedBlocksAreNamespaced(plan: seq<BlockOp>, size: Vec3, palette: seq<string>, maxBlocks: int,
                                     normalized: seq<string>, i: nat)
    requires |normalized| == |palette|
    requires forall j :: 0 <= j < |palette| ==> normalized[j] == NormalizeEntry(palette[j])
    requires PaletteAccepted(palette)
    requires ValidatePlan(plan, size, normalized, maxBlocks).None?
    requires i < |plan|
    ensures Namespace <= plan[i].block
  {
    assert OpAllowed(plan[i], size, normalized);
    var j :| 0 <= j < |normalized| && normalized[j] == plan[i].block;
  }
}
