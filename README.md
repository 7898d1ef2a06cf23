# Minecraft builder and listener, modelled in Dafny

This project models the two halves of an AI-assisted Minecraft building tool.

**The builder** (`builder.py`) takes a request text, two corners of a build volume and a palette of block ids. It works in four stages:
- It normalises the corners and the palette.
- It asks a planning service for a plan of block placements. The plan is relative to the minimum corner.
- It validates each draft against the volume, the palette and a block limit. A refused draft is retried with the previous error as feedback.
- It executes the accepted plan through a client. Each placement can be preceded by a move above the target and followed by a read-back check.

**The listener** (`listener.py`) runs inside the game. It reads newline-delimited JSON requests from a socket connection and dispatches each to the game. The game actions are: teleport, give, setblock, clear, and reads of the block, the position and the inventory. It sends one reply per non-blank message.

Modules:

| module | file | what it holds |
|---|---|---|
| `Wrappers` | wrappers.dfy | `Option`, `Result` |
| `Strings` | strings.dfy | `strip`, `lower`, `split` and `join` on strings |
| `BlockIds` | block_ids.dfy | the `minecraft:` namespace and the listener's `split(":")[1]` reduction |
| `Planning` | planning.dfy | bounds, size, palette normalisation, the plan validator |
| `Orchestrator` | orchestrator.dfy | the draft/validate/route loop |
| `Executor` | executor.dfy | the client, as a class with a call log, and `_execute_plan` |
| `Builder` | builder.dfy | the `Builder` class and `build` |
| `Inventory` | inventory.dfy | `get_inventory_dict` |
| `Dispatch` | dispatch.dfy | `handle_command` |
| `Session` | session.dfy | `client_handler`: buffering, framing, replies |
| `Interop` | interop.dfy | the builder's read-back check against the listener's replies |

Modelling choices:
- **Outside services are parameters.** Three things the model cannot see become functions passed in:
  - The planning service is a function from (attempt number, request) to an outcome.
  - The remote end of the builder's client is three functions of the calls made so far: whether a call raises, whether a placement succeeds, and what a read reports. A raising call (an error reply or a closed connection, minecraft_client.py:46-54) is logged and ends the plan with a `CallRaised` error.
  - The game as the listener sees it is a record of read functions of the commands executed so far.
- **Errors are values.** Raised exceptions become tagged `Err` values, and error strings become datatypes. Every error string in the source is non-empty, so Python's truthiness test on an error is the same as `Some?`.
- **Draft count.** The draft budget follows the code: the router retries while `attempts < max_retries`. So the service is asked at most `max(1, max_retries)` times, not `max_retries + 1` times as one might expect (`Orchestrator.DraftCount`).
- **Read-back check.** It follows the code: `found in (op.block, "minecraft:" + op.block)`. Palette entries always carry the namespace. The listener answers `get_block_at` with the name after the namespace. So with `verify=True` against the listener, every non-empty accepted plan fails at its first op. This is proved in `Interop.VerifiedExecutionFailsOnListener`. The intent of accepting a bare name on read-back is therefore not met by the code as written.

## Model

| member | source | states |
|---|---|---|
| Strings.Strip | builder.py:277 | `strip()` leaves no whitespace at either end. The result is empty exactly when the input is all whitespace. |
| Strings.StripCutsBlankEnds | builder.py:277 | `strip()` only cuts whitespace off the ends: the result is a slice of the input with nothing but whitespace before and after it. |
| Strings.StripOfStripped | builder.py:277 | A string with no whitespace at either end is its own `strip()`. |
| Strings.LowerChar | builder.py:277 | Lower-casing one character: ASCII capitals move by 32, everything else is unchanged, and no capital remains. |
| Strings.Lower | builder.py:277 | `lower()` keeps the length and lower-cases each character in place. |
| Strings.LowerKeepsStripped | builder.py:277 | `lower()` is idempotent and keeps a stripped string stripped. |
| Strings.IndexOf | listener.py:101 | The position of the first separator: it is there, and no earlier character is one. |
| Strings.Split | listener.py:27 | `split` gives at least one part, and exactly one only when the separator is absent. No part holds the separator. The first part is a prefix of the string. |
| Strings.JoinSplit | listener.py:27 | Joining the parts of a split with the separator gives back the string. |
| Strings.SplitJoin | listener.py:27 | Splitting a join of separator-free parts gives back the parts. |
| BlockIds.SimpleName | listener.py:53-55 | The reduction of a namespaced id holds no colon. An id without the namespace is returned unchanged. |
| BlockIds.SimpleNameOfNamespaced | listener.py:53-54 | For a namespaced id, the reply is the text after the namespace up to the next colon. It equals the whole rest exactly when the rest has no colon. It never holds a colon and is no longer than the rest. |
| BlockIds.SimpleNameOfPlain | listener.py:55 | An id without the namespace is returned unchanged. |
| BlockIds.SimpleNameDropsLaterSegments | listener.py:27 | `split(":")[1]` keeps only the second segment: `minecraft:a:b` gives `a`. |
| BlockIds.PlaceTarget | listener.py:63-68 | The id placed by `place_block` always starts with the namespace. |
| BlockIds.PlaceTargetCases | listener.py:63-68 | An id without the namespace gets it in front. A namespaced id is placed as the namespace plus the text after it up to the next colon. So it is placed as given exactly when that text has no colon. |
| Planning.NormalizeBounds | builder.py:250-261 | The first corner is component-wise at most the second. On each axis the pair is the two inputs, in order. |
| Planning.NormalizeBoundsSymmetric | builder.py:250-261 | The order of the two corners does not matter. |
| Planning.NormalizedBoxSpansCorners | builder.py:250-261 | The normalised box holds both corners, and a point is inside it exactly when it lies between the corners on every axis. |
| Planning.SizeFromBounds | builder.py:263-272 | For ordered corners every extent is at least 1. The minimum corner plus the size is one past the maximum corner. |
| Planning.RelativeRangeIsBox | builder.py:263-272 | A relative coordinate is within the size exactly when the absolute position it stands for is in the box. |
| Planning.NormalizeEntryCanonical | builder.py:277 | A normalised palette entry is stripped and lower-case, and normalising it again changes nothing. |
| Planning.NormalizePalette | builder.py:274-281 | The palette is accepted exactly when every normalised entry carries the namespace. On success the result is every entry normalised, in order, duplicates kept. Otherwise the error names the first offending entry, as given. |
| Planning.NormalizedPaletteIsCanonical | builder.py:274-281 | Every entry of an accepted palette is namespaced, stripped and lower-case. |
| Planning.OpViolation | builder.py:217-220 | An op is refused exactly when it is out of range or not in the palette. The range check comes first, and the error carries the op's index and coordinates or block. |
| Planning.FirstViolation | builder.py:216-222 | The scan finds no violation exactly when every op is allowed. Otherwise it reports the lowest offending index, and all earlier ops are allowed. |
| Planning.ValidatePlan | builder.py:204-222 | Too many ops is reported exactly when the plan exceeds the limit. The plan is accepted exactly when it is within the limit and every op is allowed. Otherwise the lowest offending op is reported. |
| Planning.CountCheckComesFirst | builder.py:211-212 | When the plan is too long, the validator's answer does not depend on the ops. |
| Planning.AcceptedPlanStaysInBox | builder.py:211-222 | Every op of an accepted plan lands inside the normalised box and uses a palette block. |
| Orchestrator.DraftPlan | builder.py:111-137 | A draft counts one attempt and keeps the request inputs. It records the same error in both error fields, and records none exactly when the service produced a plan. A failed call leaves the empty plan and a planning error with the failure's reason. A drafted plan is kept as drafted. |
| Orchestrator.ValidateNode | builder.py:150-170 | A recorded error passes through untouched. Otherwise both error fields take the validator's verdict on the plan (empty when absent), and the plan is kept. |
| Orchestrator.RouteAfterValidate | builder.py:172-175 | The router retries exactly when an error is recorded and fewer than `max_retries` attempts were made. |
| Orchestrator.ComposeRequest | builder.py:177-202 | The request carries the prompt, size, palette and block limit of the state. It carries feedback exactly when the state records a last error, and the feedback is that error. |
| Orchestrator.Step | builder.py:100-103 | One draft-then-validate pass counts one attempt and always leaves a plan. Its error is the one this draft's outcome implies. Without an error, the plan is exactly what the service drafted. |
| Orchestrator.RunFrom | builder.py:98-109 | A run starts with the state's own request and counts one attempt per request sent. |
| Orchestrator.RunBounded | builder.py:172-175 | A run sends one request per draft and stops within `max(attempts + 1, max_retries)` attempts. It ends with an error only once `max_retries` is reached, keeps the inputs, and always leaves a plan. |
| Orchestrator.FeedbackPropagates | builder.py:111-119 | The first request carries the state's last error. Each later request carries the non-empty error of the draft before it, which is the `Previous error:` hint of builder.py:193. The final error is the last draft's. |
| Orchestrator.RequestsKeepInputs | builder.py:111-119 | Every request of a run carries the state's prompt, size, palette and block limit. |
| Orchestrator.RunSucceedsOnValidPlan | builder.py:150-170 | A run ending without an error ends on a plan the validator accepts, exactly as the last draft returned it. |
| Orchestrator.FailingPlannerExhaustsRetries | builder.py:172-175 | When every draft leaves an error, the run ends in error after exactly `max(attempts + 1, max_retries)` attempts. |
| Orchestrator.DraftCount | builder.py:172-175 | From `build`'s initial state the service is asked between 1 and `max(1, max_retries)` times. Exactly that many drafts are made when the run ends in error. The first request has no feedback. |
| Orchestrator.RunGraph | builder.py:98-109 | The graph loop computes the run's final state and requests. It is bounded as above, and an error-free end carries a validated plan. |
| Executor.Client.MoveTo | builder.py:237 | The client logs one move call and reports whether it raised, as the remote decides for the calls made before it. |
| Executor.Client.PlaceBlock | builder.py:239 | The client logs one placement. It reports a raise exactly when the remote raises; otherwise its success is what the remote reports for the calls made before it. |
| Executor.Client.GetBlockAt | builder.py:243 | The client logs one read. It reports a raise exactly when the remote raises; otherwise it returns what the remote reports for the calls made before it. |
| Executor.ExecOp | builder.py:233-247 | One op always logs at least one call and never more than its own calls. |
| Executor.ExecOpCalls | builder.py:233-247 | An op goes through exactly when no call raises, the remote accepts the placement and, with `verify`, the read-back is the block with or without the namespace. It then adds exactly its calls: the move above the target, the placement, the read. A failing op adds a non-empty prefix of them. |
| Executor.ExecOpRaised | builder.py:236-243 | A raised call is the last call the op logged, and the remote raises on it given the calls before it. |
| Executor.ExecOpPlaceFailed | builder.py:239-241 | A placement failure names the block and the absolute target. The refused placement is the last call, it did not raise, and the remote refused it. |
| Executor.ExecOpVerifyFailed | builder.py:242-247 | A verification failure happens only with `verify`, after all of the op's calls. It carries what the remote read after the placement, which is neither the block nor the block with the namespace. |
| Executor.ExecFrom | builder.py:232-248 | A run only appends to the log, and appends something whenever an op is left to run. |
| Executor.ExecSucceeds | builder.py:232-248 | A run with no failure makes every op's calls in plan order, and nothing else. |
| Executor.ExecStopsAtFirstFailure | builder.py:240-247 | A failing run stops at one op. All earlier ops made all their calls, and the run's result is that op's failure. |
| Executor.LaterOpsIgnoredAfterFailure | builder.py:240-247 | Ops after a failing op make no call: appending ops to a failing plan changes nothing. |
| Executor.ExecutePlan | builder.py:224-248 | The calls the client logs and the error raised are those of `ExecFrom` from the first op. |
| Executor.ExecuteOp | builder.py:233-248 | One iteration of the loop logs the calls, and stops with the error, that `ExecOp` gives. |
| Builder.Builder.constructor | builder.py:47-61 | The builder keeps its client and planning service, with a limit of 600 blocks and 2 retries by default. |
| Builder.Builder.Build | builder.py:63-96 | A refused palette fails before any client call, and so does a loop that ends in error. Otherwise the accepted plan is executed from the minimum corner. The result is that plan, or the execution error, and a returned plan always validates. |
| Inventory.Tally | listener.py:24-29 | After folding in a stack, its simple name is a key of the dictionary. |
| Inventory.TallySize | listener.py:24-29 | The dictionary has no more entries than there are stacks. |
| Inventory.TallyKeys | listener.py:24-29 | The dictionary's keys are exactly the stacks' item names without the namespace. |
| Inventory.TallyValues | listener.py:28-29 | Each value is the sum of the counts of the stacks of that name, a missing count counting 1. |
| Inventory.TallyTotal | listener.py:28-29 | The values add up to the counts of all stacks: nothing is lost or invented. |
| Inventory.TallyMeaning | listener.py:20-32 | The dictionary's keys, per-name sums and total together. |
| Inventory.GetInventoryDict | listener.py:20-32 | The loop builds that dictionary: its keys, its per-name sums, and its total. |
| Dispatch.HandleCommand | listener.py:34-86 | A request fails exactly when its method is unknown, and a failing request runs no game command. |
| Dispatch.HandleCommandOutcome | listener.py:34-86 | Exactly unknown methods fail, with `Unknown method` and no game command. Only moves, placements and inventory changes run commands. A move is one teleport, a ping answers `pong`, and a position query returns the game's position. |
| Dispatch.GiveSetClearNeutral | listener.py:70-72 | Giving one block, setting it and clearing one again leaves every inventory count as it was. |
| Dispatch.PlaceBlockLeavesInventory | listener.py:60-73 | `place_block` runs give, setblock, clear, in that order, all on the namespaced id. It returns `True` and leaves the inventory counts unchanged. |
| Dispatch.SetInventorySetsCount | listener.py:75-80 | `set_inventory` clears the item first and gives it again only for a positive count. Afterwards the player holds exactly `count` of it (none for a non-positive count), and other items are untouched. |
| Dispatch.GetBlockAtReply | listener.py:50-55 | `get_block_at` runs no command. It answers an id without the namespace as read. It answers a namespaced id with the text after the namespace up to the next colon. |
| Dispatch.GetInventoryReply | listener.py:57-58 | `get_inventory` runs no command and answers with one key per item name, holding that name's summed counts. |
| Session.SplitFrames | listener.py:100-101 | Neither the messages taken from a buffer nor the leftover holds a newline. |
| Session.SplitFramesReassembles | listener.py:100-101 | The messages, each followed by a newline, and then the leftover, are the buffer again. |
| Session.SplitFramesOfFrame | listener.py:100-101 | Splitting framed messages plus an unterminated rest recovers exactly those messages and that rest. |
| Session.FrameAppend | listener.py:100-101 | Framing two batches is framing their concatenation. |
| Session.ChunkedFraming | listener.py:92-101 | How the bytes are chunked does not matter. The messages of `a + b` are those of `a`, followed by those of `a`'s leftover with `b` appended. |
| Session.Answer | listener.py:102-114 | A message gets no reply exactly when it is blank, and then runs no command. A failed message runs no command either. |
| Session.HandleAll | listener.py:100-114 | Handling messages only appends to the commands executed, and sends at most one reply per message. |
| Session.HandleAllAppend | listener.py:100-114 | Handling two batches in turn is handling them together: same commands, replies concatenated. |
| Session.AnswerFits | listener.py:102-114 | A non-blank message always gets a reply. An undecodable one gets a malformed-message error, an unknown method the unknown-method error, and a known method a success. |
| Session.RepliesFollowMessages | listener.py:100-114 | There is one reply per non-blank message, in order. An undecodable message gets a malformed-message error. An unknown method gets the unknown-method error. A known method succeeds. Later messages are still answered. |
| Session.Session.constructor | listener.py:88-90 | A connection starts with an empty buffer and no replies. |
| Session.Session.HandleMessage | listener.py:102-114 | A blank message gets no reply. Any other is decoded, handled, and answered as `Answer` gives. |
| Session.Session.Receive | listener.py:97-114 | After a chunk, the messages handled and the new buffer are the split of old buffer plus chunk. Commands and replies are those of handling those messages in order. |
| Session.Session.Serve | listener.py:92-114 | Over a connection, everything received before the first empty chunk is split and handled in order, whatever the chunking. |
| Interop.ListenerRemote | listener.py:50-73 | The listener as the builder's remote, when no game call fails: no call raises, every placement succeeds, and no read-back holds a colon. |
| Interop.ListenerReadsPlaced | listener.py:50-73 | Right after a placement, the listener reads back the placed id's simple name. |
| Interop.ListenerReadHasNoColon | listener.py:50-55 | Nothing the listener reads back holds a colon. |
| Interop.NoColonNeverMatches | builder.py:244 | A read-back without a colon never passes the builder's check for a namespaced block. |
| Interop.SimpleNameNeverMatches | builder.py:244 | Whatever the game holds, the listener's reduction of it never passes the builder's check for a namespaced block. |
| Interop.ListenerReadNeverMatches | builder.py:242-247 | Against the listener, the read-back check refuses every read-back of a namespaced block. |
| Interop.VerifiedOpFails | builder.py:239-247 | An op whose placement succeeds and whose read-back is refused makes all its calls, then fails verification with what was read. |
| Interop.ListenerReadAfterOp | listener.py:60-73 | With verification on, the read after an op reports the simple name of the op's block. |
| Interop.ListenerRefuses | builder.py:239-247 | The listener accepts every placement and the read-back check refuses every read-back of a namespaced block. |
| Interop.VerifiedExecutionFailsOnListener | builder.py:224-248 | With `verify`, execution against the listener fails at the first op of any plan whose first block is namespaced. The error names that block and its simple name. |
| Interop.ValidatedBlocksAreNamespaced | builder.py:211-222 | Every block of a plan validated against a normalised, accepted palette carries the namespace. |

## Left out

- `minecraft_client.py` is not part of this model. Its socket client, handshake and reconnect-and-retry are not modelled. The builder's client is modelled only through the calls it makes and the remote's answers, including whether a call raises. A reconnect that succeeds and repeats the call is not distinguished from a first try.
- `main.py` is not part of this model. It is a separate script that drives the client directly: it stocks five `stone` blocks with `set_inventory`, reads the inventory, moves and places them in a line, and reads each back against `stone` or `minecraft:stone`. It does not use the builder.
- The planning service is a function parameter. The language-model call, the structured-output schema and the prompt texts are not modelled. The prompt is a structured request whose `previousError` field stands for the `Previous error:` line.
- The graph library is not modelled. The two nodes and the router are functions, and the graph is the loop `RunGraph`.
- `time.sleep` throttling is not modelled, because it has no effect on results.
- Error messages are tagged values. Their exact wording is not modelled.
- The `No plan returned` branch of `build` (builder.py:91-93) is left out. `Orchestrator.RunBounded` proves that the loop always leaves a plan, so the branch cannot be taken.
- `Strings.Strip` and `Strings.Lower` cover ASCII and Latin-1 whitespace and ASCII letters only. Full Unicode `str.isspace` and `str.lower` are not modelled.
- JSON encoding and decoding and UTF-8 decoding are not modelled. The listener's decoder is a function parameter that returns a request or a reason. It also stands for a message that is not an object and for parameters of the wrong arity. A chunk that splits a multi-byte character is not modelled, since chunks are already text.
- Request parameters are integers and strings. Other JSON values in `params`, and the exact text of the game commands, are not modelled. Commands are structured values.
- Positions are reals in replies. The `hasattr(pos, 'x')` choice between the two position shapes is not modelled.
- An exception raised by a game call in the middle of `handle_command` or `get_inventory_dict` is not modelled on the listener side (listener.py:30-31, 110-112). This includes the error reply it leads to and the partial dictionary `get_inventory_dict` would return. `Interop.ListenerRemote` therefore models a listener whose game calls do not fail.
- Socket failures in `client_handler`, the closing of the connection, and the `start_server` accept loop (listener.py:122-140) are not modelled.
- Printing and logging are not modelled.
- Dispatch.ApplyCommand: the effect of `give` and `clear` on item counts is a minimal reference model. It ignores stack sizes, inventory capacity, and the equivalence of `oak_planks` and `minecraft:oak_planks` in the game.
