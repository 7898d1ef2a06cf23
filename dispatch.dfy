/**
  * `handle_command` (listener.py): one decoded request is answered from the
  * game, or turned into game commands that are executed in order.
  */
module Dispatch {
  import opened Wrappers
  import opened Strings
  import opened BlockIds
  import opened Inventory

  /** A game command the listener executes, in structured form. */
  datatype Command =
    | Teleport(x: int, y: int, z: int)                 // tp x y z
    | Give(item: string, count: int)                   // give @p item count
    | SetBlock(x: int, y: int, z: int, block: string)  // setblock x y z block
    | Clear(item: string, limit: Option<int>)          // clear @p item [limit]

  /**
    * A decoded request. The seven methods the listener knows, and `Unknown`
    * for any other method name.
    */
  datatype Request =
    | GetPosition
    | MoveTo(x: int, y: int, z: int)
    | GetBlockAt(x: int, y: int, z: int)
    | GetInventory
    | PlaceBlock(x: int, y: int, z: int, blockType: string)
    | SetInventory(blockType: string, count: int)
    | Ping
    | Unknown(name: string)

  /** A successful result. */
  datatype Value =
    | Null
    | Flag(flag: bool)
    | Text(text: string)
    | Position(px: real, py: real, pz: real)
    | Counts(items: map<string, int>)

  /** Why a message got an error reply. */
  datatype DispatchError =
    | UnknownMethod(name: string)  // the method is none of the seven
    | Malformed(reason: string)    // the message is not JSON, or its params do not fit the method

  /**
    * What the listener reads from the game, each read given the commands
    * executed before it: the player's position, the id of the block at a
    * position, and the player's inventory stacks.
    */
  datatype Game = Game(
    position: seq<Command> -> (real, real, real),
    blockAt: (seq<Command>, int, int, int) -> string,
    inventory: seq<Command> -> seq<Stack>)

  /** The commands a request executes and the result it returns. */
  datatype Handled = Handled(emitted: seq<Command>, result: Result<Value, DispatchError>)

  /**
    * `handle_command`, given the commands executed so far. Only an unknown
    * method fails, and a failing request touches nothing in the game.
    */
  function HandleCommand(game: Game, history: seq<Command>, req: Request): (h: Handled)
    ensures h.result.Err? <==> req.Unknown?
    ensures h.result.Err? ==> h.emitted == []
  {
    match req
    case GetPosition =>
      var p := game.position(history);
      Handled([], Ok(Position(p.0, p.1, p.2)))
    case MoveTo(x, y, z) =>
      Handled([Teleport(x, y, z)], Ok(Null))
    case GetBlockAt(x, y, z) =>
      Handled([], Ok(Text(SimpleName(game.blockAt(history, x, y, z)))))
    case GetInventory =>
      Handled([], Ok(Counts(Tally(game.inventory(history)))))
    case PlaceBlock(x, y, z, blockType) =>
      var fullName := PlaceTarget(blockType);
      Handled([Give(fullName, 1), SetBlock(x, y, z, fullName), Clear(fullName, Some(1))], Ok(Flag(true)))
    case SetInventory(blockType, count) =>
      Handled([Clear(blockType, None)] + (if count > 0 then [Give(blockType, count)] else []), Ok(Null))
    case Ping =>
      Handled([], Ok(Text("pong")))
    case Unknown(name) =>
      Handled([], Err(UnknownMethod(name)))
  }

  /**
    * Exactly the unknown methods fail, with the method's name and without
    * touching the game; only moves, placements and inventory changes
    * execute commands; a move is one teleport, a ping answers `pong`, and a
    * position query answers the position the game reports.
    */
  lemma HandleCommandOutcome(game: Game, history: seq<Command>, req: Request)
    ensures var h := HandleCommand(game, history, req);
      && (h.result.Err? <==> req.Unknown?)
      && (req.Unknown? ==> h.result.error == UnknownMethod(req.name) && h.emitted == [])
      && (h.emitted != [] <==> req.MoveTo? || req.PlaceBlock? || req.SetInventory?)
      && (req.MoveTo? ==> h.emitted == [Teleport(req.x, req.y, req.z)] && h.result == Ok(Null))
      && (req.Ping? ==> h.result == Ok(Text("pong")))
      && (req.GetPosition? ==> var p := game.position(history); h.result == Ok(Position(p.0, p.1, p.2)))
  {
  }

  /** The player's item counts, as far as the listener's commands affect them. */
  type Holdings = map<string, int>

  /** How many of `item` the player holds. */
  function Held(inv: Holdings, item: string): int {
    if item in inv then inv[item] else 0
  }

  /**
    * The effect of one command on the item counts: `give` adds, `clear`
    * with a count removes up to that many, `clear` without one removes all.
    */
  function ApplyCommand(inv: Holdings, cmd: Command): Holdings {
    match cmd
    case Give(item, count) => inv[item := Held(inv, item) + count]
    case Clear(item, None) => inv[item := 0]
    case Clear(item, Some(count)) =>
      inv[item := Held(inv, item) - (if count < Held(inv, item) then count else Held(inv, item))]
    case _ => inv
  }

  function ApplyCommands(inv: Holdings, cmds: seq<Command>): Holdings
    decreases |cmds|
  {
    if cmds == [] then inv else ApplyCommands(ApplyCommand(inv, cmds[0]), cmds[1..])
  }

  /** Giving one of an item, setting a block, and clearing one again leaves every count as it was. */
  lemma {:induction false} GiveSetClearNeutral(inv: Holdings, x: int, y: int, z: int, fullName: string, item: string)
    requires Held(inv, item) >= 0
    ensures Held(ApplyCommands(inv, [Give(fullName, 1), SetBlock(x, y, z, fullName), Clear(fullName, Some(1))]), item)
            == Held(inv, item)
  {
    var cmds := [Give(fullName, 1), SetBlock(x, y, z, fullName), Clear(fullName, Some(1))];
    var inv1 := ApplyCommand(inv, cmds[0]);
    var inv2 := ApplyCommand(inv1, cmds[1]);
    var inv3 := ApplyCommand(inv2, cmds[2]);
    assert ApplyCommands(inv, cmds) == ApplyCommands(inv1, cmds[1..]);
    assert ApplyCommands(inv1, cmds[1..]) == ApplyCommands(inv2, cmds[2..]);
    assert ApplyCommands(inv2, cmds[2..]) == ApplyCommands(inv3, []);
  }

  /**
    * `place_block` gives one block, sets it, and clears one again, all under
    * the namespaced id; the player's counts end as they began, and the
    * result is `True`.
    */
  lemma PlaceBlockLeavesInventory(game: Game, history: seq<Command>, x: int, y: int, z: int, blockType: string,
                                  inv: Holdings, item: string)
    requires Held(inv, item) >= 0
    ensures var h := HandleCommand(game, history, PlaceBlock(x, y, z, blockType));
      var fullName := PlaceTarget(blockType);
      && h.emitted == [Give(fullName, 1), SetBlock(x, y, z, fullName), Clear(fullName, Some(1))]
      && Namespace <= fullName
      && h.result == Ok(Flag(true))
      && Held(ApplyCommands(inv, h.emitted), item) == Held(inv, item)
  {
    GiveSetClearNeutral(inv, x, y, z, PlaceTarget(blockType), item);
  }

  /**
    * `set_inventory` clears the item and gives `count` of it only when
    * `count` is positive: afterwards the player holds `count` of it (none
    * for a count of zero or less) and every other count is as before.
    */
  lemma SetInventorySetsCount(game: Game, history: seq<Command>, blockType: string, count: int,
                              inv: Holdings, item: string)
    ensures var h := HandleCommand(game, history, SetInventory(blockType, count));
      && h.emitted[0] == Clear(blockType, None)
      && (|h.emitted| == 2 <==> count > 0)
      && h.result == Ok(Null)
      && Held(ApplyCommands(inv, h.emitted), blockType) == (if count > 0 then count else 0)
      && (item != blockType ==> Held(ApplyCommands(inv, h.emitted), item) == Held(inv, item))
  {
    var h := HandleCommand(game, history, SetInventory(blockType, count));
    var inv1 := ApplyCommand(inv, Clear(blockType, None));
    assert ApplyCommands(inv, h.emitted) == ApplyCommands(inv1, h.emitted[1..]);
    if count > 0 {
      assert h.emitted[1..][1..] == [];
    }
  }

  /**
    * `get_block_at` answers without the namespace: an id outside it as read,
    * a namespaced one as the text after the namespace up to the next colon.
    */
  lemma GetBlockAtReply(game: Game, history: seq<Command>, x: int, y: int, z: int)
    ensures var raw := game.blockAt(history, x, y, z);
      var h := HandleCommand(game, history, GetBlockAt(x, y, z));
      && h.emitted == []
      && h.result.Ok? && h.result.value.Text?
      && (!(Namespace <= raw) ==> h.result.value.text == raw)
      && (Namespace <= raw ==> h.result.value.text == Split(raw[|Namespace|..], ':')[0])
      && (Namespace <= raw ==> ':' !in h.result.value.text && |h.result.value.text| <= |raw| - |Namespace|)
  {
    var raw := game.blockAt(history, x, y, z);
    if Namespace <= raw {
      assert raw == Namespace + raw[|Namespace|..];
      SimpleNameOfNamespaced(raw[|Namespace|..]);
    }
  }

  /**
    * `get_inventory` answers with the folded inventory: one key per simple
    * item name and, per key, the counts of that name's stacks added up.
    */
  lemma GetInventoryReply(game: Game, history: seq<Command>)
    ensures var stacks := game.inventory(history);
      var h := HandleCommand(game, history, GetInventory);
      && h.emitted == []
      && h.result.Ok? && h.result.value.Counts?
      && h.result.value.items.Keys == Names(stacks)
      && forall name :: name in h.result.value.items ==> h.result.value.items[name] == SumFor(stacks, name)
  {
    var stacks := game.inventory(history);
    TallyKeys(stacks);
    forall name | name in Tally(stacks)
      ensures Tally(stacks)[name] == SumFor(stacks, name)
    {
      TallyValues(stacks, name);
    }
  }
}
