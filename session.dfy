/**
  * `client_handler` (listener.py): bytes arrive in chunks, are appended to a
  * buffer, and every complete newline-terminated message in the buffer is
  * handled in arrival order, one reply per non-blank message.
  */
module Session {
  import opened Wrappers
  import opened Strings
  import opened Dispatch

  /** The reply to one message: `{"status": "success", ...}` or `{"status": "error", ...}`. */
  datatype Reply = Success(result: Value) | Failure(error: DispatchError)

  /**
    * JSON decoding of one message into a request; `Err` carries why the
    * message is not a request (not JSON, not an object, params of the wrong
    * arity for the method).
    */
  type Decoder = string -> Result<Request, string>

  /** Messages written out on the wire, each followed by a newline. */
  function Frame(msgs: seq<string>): string
    decreases |msgs|
  {
    if msgs == [] then [] else msgs[0] + "\n" + Frame(msgs[1..])
  }

  /**
    * The inner loop's view of a buffer: the complete messages it holds, in
    * order, and what is left after the last newline.
    */
  function SplitFrames(buffer: string): (r: (seq<string>, string))
    ensures '\n' !in r.1
    ensures forall i :: 0 <= i < |r.0| ==> '\n' !in r.0[i]
    decreases |buffer|
  {
    if '\n' in buffer then
      var k := IndexOf(buffer, '\n');
      var rest := SplitFrames(buffer[k + 1..]);
      ([buffer[..k]] + rest.0, rest.1)
    else
      ([], buffer)
  }

  /** The messages, each with its newline, followed by the rest, are the buffer again. */
  lemma {:induction false} SplitFramesReassembles(buffer: string)
    ensures Frame(SplitFrames(buffer).0) + SplitFrames(buffer).1 == buffer
    decreases |buffer|
  {
    if '\n' in buffer {
      var k := IndexOf(buffer, '\n');
      var tail := buffer[k + 1..];
      var rest := SplitFrames(tail);
      SplitFramesReassembles(tail);
      assert SplitFrames(buffer) == ([buffer[..k]] + rest.0, rest.1);
      var head := buffer[..k] + "\n";
      assert ([buffer[..k]] + rest.0)[0] == buffer[..k];
      assert ([buffer[..k]] + rest.0)[1..] == rest.0;
      assert Frame([buffer[..k]] + rest.0) == head + Frame(rest.0);
      AppendAssoc(head, Frame(rest.0), rest.1);
      SliceAround(buffer, k);
    } else {
      assert Frame([]) + buffer == buffer;
    }
  }

  lemma {:induction false} FrameAppend(a: seq<string>, b: seq<string>)
    ensures Frame(a + b) == Frame(a) + Frame(b)
    decreases |a|
  {
    if a != [] {
      assert (a + b)[1..] == a[1..] + b;
      FrameAppend(a[1..], b);
    } else {
      assert a + b == b;
    }
  }

  /** Splitting recovers the messages that were framed, and the unterminated rest. */
  lemma {:induction false} SplitFramesOfFrame(msgs: seq<string>, rest: string)
    requires forall i :: 0 <= i < |msgs| ==> '\n' !in msgs[i]
    requires '\n' !in rest
    ensures SplitFrames(Frame(msgs) + rest) == (msgs, rest)
    decreases |msgs|
  {
    if msgs != [] {
      var buffer := Frame(msgs) + rest;
      var m := msgs[0];
      assert buffer == m + "\n" + (Frame(msgs[1..]) + rest);
      assert buffer[|m|] == '\n' && buffer[..|m|] == m;
      assert IndexOf(buffer, '\n') == |m|;
      assert buffer[|m| + 1..] == Frame(msgs[1..]) + rest;
      SplitFramesOfFrame(msgs[1..], rest);
      assert SplitFrames(buffer) == ([m] + SplitFrames(buffer[|m| + 1..]).0, SplitFrames(buffer[|m| + 1..]).1);
      assert [m] + msgs[1..] == msgs;
    } else {
      assert Frame(msgs) + rest == rest;
    }
  }

  /**
    * Chunking does not matter: the messages of `a + b` are those of `a`
    * followed by those of `a`'s rest with `b` appended.
    */
  lemma ChunkedFraming(a: string, b: string)
    ensures SplitFrames(a + b) == (SplitFrames(a).0 + SplitFrames(SplitFrames(a).1 + b).0, SplitFrames(SplitFrames(a).1 + b).1)
  {
    var msgsA, restA := SplitFrames(a).0, SplitFrames(a).1;
    var msgsB, restB := SplitFrames(restA + b).0, SplitFrames(restA + b).1;
    SplitFramesReassembles(a);
    SplitFramesReassembles(restA + b);
    Reframe(a, b, msgsA, restA, msgsB, restB);
    NoNewlineAppend(msgsA, msgsB);
    SplitFramesOfFrame(msgsA + msgsB, restB);
  }

  /** Two framed batches, the second completing the first's rest, frame as one batch. */
  lemma Reframe(a: string, b: string, msgsA: seq<string>, restA: string, msgsB: seq<string>, restB: string)
    requires a == Frame(msgsA) + restA
    requires restA + b == Frame(msgsB) + restB
    ensures a + b == Frame(msgsA + msgsB) + restB
  {
    FrameAppend(msgsA, msgsB);
    AppendAssoc(Frame(msgsA), restA, b);
    AppendAssoc(Frame(msgsA), Frame(msgsB), restB);
  }

  lemma AppendAssoc<T>(x: seq<T>, y: seq<T>, z: seq<T>)
    ensures (x + y) + z == x + (y + z)
  {
  }

  /** One step of the inner loop: the first message, then the messages of what follows its newline. */
  lemma SplitFramesStep(buffer: string)
    requires '\n' in buffer
    ensures var k := IndexOf(buffer, '\n');
      && SplitFrames(buffer).0 == [buffer[..k]] + SplitFrames(buffer[k + 1..]).0
      && SplitFrames(buffer).1 == SplitFrames(buffer[k + 1..]).1
  {
  }

  /** Messages without a newline stay so when two batches are joined. */
  lemma NoNewlineAppend(msgsA: seq<string>, msgsB: seq<string>)
    requires forall i :: 0 <= i < |msgsA| ==> '\n' !in msgsA[i]
    requires forall i :: 0 <= i < |msgsB| ==> '\n' !in msgsB[i]
    ensures forall i :: 0 <= i < |msgsA + msgsB| ==> '\n' !in (msgsA + msgsB)[i]
  {
  }

  /**
    * The commands and the reply of one message, given the commands executed
    * before it: a blank message gets no reply, and a message that fails
    * executes no command.
    */
  function Answer(game: Game, decode: Decoder, history: seq<Command>, msg: string): (r: (seq<Command>, Option<Reply>))
    ensures r.1.None? <==> IsBlank(msg)
    ensures r.1.None? ==> r.0 == []
    ensures r.1.Some? && r.1.value.Failure? ==> r.0 == []
  {
    if Strip(msg) == [] then ([], None)
    else
      match decode(msg)
      case Err(reason) => ([], Some(Failure(Malformed(reason))))
      case Ok(req) =>
        var h := HandleCommand(game, history, req);
        (h.emitted, Some(if h.result.Ok? then Success(h.result.value) else Failure(h.result.error)))
  }

  /** All commands executed so far, and the replies sent, after handling `msgs` in order. */
  function HandleAll(game: Game, decode: Decoder, history: seq<Command>, msgs: seq<string>): (r: (seq<Command>, seq<Reply>))
    ensures history <= r.0
    ensures |r.1| <= |msgs|
    decreases |msgs|
  {
    if msgs == [] then (history, [])
    else
      var (cmds, replies) := HandleAll(game, decode, history, msgs[..|msgs| - 1]);
      var (emitted, reply) := Answer(game, decode, cmds, msgs[|msgs| - 1]);
      (cmds + emitted, replies + (if reply.Some? then [reply.value] else []))
  }

  /** Handling two batches one after the other is handling them together. */
  lemma {:induction false} HandleAllAppend(game: Game, decode: Decoder, history: seq<Command>, a: seq<string>, b: seq<string>)
    ensures HandleAll(game, decode, history, a + b) ==
              (HandleAll(game, decode, HandleAll(game, decode, history, a).0, b).0,
               HandleAll(game, decode, history, a).1 + HandleAll(game, decode, HandleAll(game, decode, history, a).0, b).1)
    decreases |b|
  {
    var (cmdsA, repliesA) := HandleAll(game, decode, history, a);
    if b == [] {
      assert a + b == a;
      assert repliesA + [] == repliesA;
    } else {
      var init := b[..|b| - 1];
      var last := b[|b| - 1];
      assert (a + b)[..|a + b| - 1] == a + init;
      assert (a + b)[|a + b| - 1] == last;
      HandleAllAppend(game, decode, history, a, init);
      var mid := HandleAll(game, decode, cmdsA, init);
      var whole := HandleAll(game, decode, history, a + init);
      assert whole == (mid.0, repliesA + mid.1);
      var step := Answer(game, decode, mid.0, last);
      var extra := if step.1.Some? then [step.1.value] else [];
      assert HandleAll(game, decode, history, a + b) == (mid.0 + step.0, whole.1 + extra);
      assert HandleAll(game, decode, cmdsA, b) == (mid.0 + step.0, mid.1 + extra);
      assert (repliesA + mid.1) + extra == repliesA + (mid.1 + extra);
    }
  }

  /** Handling one more message after a batch. */
  lemma HandleAllSnoc(game: Game, decode: Decoder, history: seq<Command>, msgs: seq<string>, msg: string)
    ensures var (cmds, replies) := HandleAll(game, decode, history, msgs);
      var (emitted, reply) := Answer(game, decode, cmds, msg);
      HandleAll(game, decode, history, msgs + [msg]) == (cmds + emitted, replies + (if reply.Some? then [reply.value] else []))
  {
    assert (msgs + [msg])[..|msgs|] == msgs;
  }

  /** The messages that get a reply: those that are not blank once stripped. */
  function NonBlank(msgs: seq<string>): seq<string>
    decreases |msgs|
  {
    if msgs == [] then []
    else
      var last := msgs[|msgs| - 1];
      NonBlank(msgs[..|msgs| - 1]) + (if Strip(last) == [] then [] else [last])
  }

  /**
    * The reply a non-blank message gets: a malformed-message error when it
    * does not decode, the unknown-method error for an unknown method, and a
    * success otherwise.
    */
  predicate ReplyFits(decode: Decoder, msg: string, reply: Reply) {
    && (decode(msg).Err? ==> reply == Failure(Malformed(decode(msg).error)))
    && (decode(msg).Ok? && decode(msg).value.Unknown? ==> reply == Failure(UnknownMethod(decode(msg).value.name)))
    && (decode(msg).Ok? && !decode(msg).value.Unknown? ==> reply.Success?)
  }

  /** A non-blank message always gets a reply, and it is the one `ReplyFits` describes. */
  lemma AnswerFits(game: Game, decode: Decoder, history: seq<Command>, msg: string)
    requires !IsBlank(msg)
    ensures var reply := Answer(game, decode, history, msg).1;
      reply.Some? && ReplyFits(decode, msg, reply.value)
  {
    if decode(msg).Ok? {
      HandleCommandOutcome(game, history, decode(msg).value);
    }
  }

  /**
    * One reply per non-blank message, in order: a message that does not
    * decode gets a malformed-message error, one with an unknown method gets
    * the unknown-method error, and either way the messages after it are
    * still handled.
    */
  lemma {:induction false} RepliesFollowMessages(game: Game, decode: Decoder, history: seq<Command>, msgs: seq<string>)
    ensures var replies := HandleAll(game, decode, history, msgs).1;
      && |replies| == |NonBlank(msgs)|
      && forall k :: 0 <= k < |replies| ==> ReplyFits(decode, NonBlank(msgs)[k], replies[k])
    decreases |msgs|
  {
    if msgs != [] {
      var init := msgs[..|msgs| - 1];
      var last := msgs[|msgs| - 1];
      RepliesFollowMessages(game, decode, history, init);
      var (cmds, replies) := HandleAll(game, decode, history, init);
      if !IsBlank(last) {
        AnswerFits(game, decode, cmds, last);
        var reply := Answer(game, decode, cmds, last).1.value;
        assert HandleAll(game, decode, history, msgs).1 == replies + [reply];
        assert NonBlank(msgs) == NonBlank(init) + [last];
      } else {
        assert HandleAll(game, decode, history, msgs).1 == replies;
        assert NonBlank(msgs) == NonBlank(init);
      }
    }
  }

  /** The messages a run of chunks delivers: everything before the first empty chunk. */
  function Received(chunks: seq<string>): string
    decreases |chunks|
  {
    if chunks == [] || chunks[0] == [] then [] else chunks[0] + Received(chunks[1..])
  }

  /** One connection to the listener. */
  class Session {
    /** Received text not yet terminated by a newline. */
    var buffer: string
    /** Every game command executed so far, in order. */
    var commands: seq<Command>
    /** Every reply sent so far, in order. */
    var replies: seq<Reply>
    const game: Game
    const decode: Decoder

    constructor (game: Game, decode: Decoder, executed: seq<Command>)
      ensures buffer == [] && replies == [] && commands == executed
      ensures this.game == game && this.decode == decode
    {
      buffer := [];
      commands := executed;
      replies := [];
      this.game := game;
      this.decode := decode;
    }

    /**
      * One message taken from the buffer: a blank one is skipped, any other
      * is decoded and handled, and the reply to send is returned.
      */
    method HandleMessage(message: string) returns (reply: Option<Reply>)
      modifies this`commands
      ensures (commands, reply) == (old(commands) + Answer(game, decode, old(commands), message).0,
                                    Answer(game, decode, old(commands), message).1)
    {
      if Strip(message) == [] {
        assert commands + [] == commands;
        return None;
      }
      match decode(message)
      case Err(reason) =>
        assert commands + [] == commands;
        reply := Some(Failure(Malformed(reason)));
      case Ok(req) =>
        var handled := HandleCommand(game, commands, req);
        commands := commands + handled.emitted;
        reply := Some(if handled.result.Ok? then Success(handled.result.value) else Failure(handled.result.error));
    }

    /**
      * One received chunk: appended to the buffer, then every complete
      * message is taken from the front of the buffer and handled.
      */
    method Receive(data: string) returns (messages: seq<string>)
      modifies this
      ensures (messages, buffer) == SplitFrames(old(buffer) + data)
      ensures commands == HandleAll(game, decode, old(commands), messages).0
      ensures replies == old(replies) + HandleAll(game, decode, old(commands), messages).1
    {
      buffer := buffer + data;
      ghost var received, history, sent := buffer, commands, replies;
      messages := [];
      while '\n' in buffer
        invariant SplitFrames(received).0 == messages + SplitFrames(buffer).0
        invariant SplitFrames(received).1 == SplitFrames(buffer).1
        invariant commands == HandleAll(game, decode, history, messages).0
        invariant replies == sent + HandleAll(game, decode, history, messages).1
        decreases |buffer|
      {
        var k := IndexOf(buffer, '\n');
        var message := buffer[..k];
        SplitFramesStep(buffer);
        AppendAssoc(messages, [message], SplitFrames(buffer[k + 1..]).0);
        HandleAllSnoc(game, decode, history, messages, message);
        AppendAssoc(sent, HandleAll(game, decode, history, messages).1,
                    if Answer(game, decode, commands, message).1.Some? then [Answer(game, decode, commands, message).1.value] else []);
        buffer := buffer[k + 1..];
        messages := messages + [message];
        var reply := HandleMessage(message);
        if reply.Some? {
          replies := replies + [reply.value];
        } else {
          assert replies + [] == replies;
        }
      }
      assert SplitFrames(buffer) == ([], buffer);
      assert messages + [] == messages;
    }

    /**
      * The connection: chunks are received until the first empty one, which
      * marks the peer closing it.
      */
    method Serve(chunks: seq<string>) returns (messages: seq<string>)
      requires '\n' !in buffer
      modifies this
      ensures (messages, buffer) == SplitFrames(old(buffer) + Received(chunks))
      ensures commands == HandleAll(game, decode, old(commands), messages).0
      ensures replies == old(replies) + HandleAll(game, decode, old(commands), messages).1
    {
      ghost var start, history, sent := buffer, commands, replies;
      ghost var consumed: string := [];
      messages := [];
      var i := 0;
      assert start + consumed == start;
      assert chunks[i..] == chunks;
      while i < |chunks| && chunks[i] != []
        invariant i <= |chunks|
        invariant consumed + Received(chunks[i..]) == Received(chunks)
        invariant SplitFrames(start + consumed) == (messages, buffer)
        invariant commands == HandleAll(game, decode, history, messages).0
        invariant replies == sent + HandleAll(game, decode, history, messages).1
        decreases |chunks| - i
      {
        var chunk := chunks[i];
        ghost var before := messages;
        ChunkedFraming(start + consumed, chunk);
        AppendAssoc(start, consumed, chunk);
        AppendAssoc(consumed, chunk, Received(chunks[i + 1..]));
        assert chunks[i..][1..] == chunks[i + 1..];
        var batch := Receive(chunk);
        HandleAllAppend(game, decode, history, before, batch);
        AppendAssoc(sent, HandleAll(game, decode, history, before).1,
                    HandleAll(game, decode, HandleAll(game, decode, history, before).0, batch).1);
        consumed := consumed + chunk;
        messages := messages + batch;
        i := i + 1;
      }
      assert Received(chunks[i..]) == [];
      assert consumed + [] == consumed;
    }
  }
}
