/**
 * The chat console component as an object: its React state and refs are
 * fields, and each handler updates them in place. Every method is proved
 * to leave the console in the state the matching function of module
 * ChatSession gives, so the properties proved there hold of the console.
 * `addDebugLog` is the update `debugLogs := PushLog(debugLogs, Entry(now, text))`.
 */
module ChatConsole {
  import opened Wrappers
  import opened Text
  import opened ChatSession

  class Console {
    var messages: seq<Message>
    var input: string
    var isConnected: bool
    var isStreaming: bool
    var debugLogs: seq<string>
    var socket: SocketState
    /** `currentResponseRef`. */
    var response: string
    /** `currentTraceIdRef`. */
    var traceId: string
    /** What was handed to `ws.send`, oldest first. */
    var outbox: seq<string>
    /** Reconnect timers that have not fired yet. */
    var pendingRetries: nat
    /** Sockets created so far. */
    var attempts: nat

    /** The console's fields as one value. */
    function State(): Session
      reads this
    {
      Session(messages, input, isConnected, isStreaming, debugLogs, socket, response, traceId,
              outbox, pendingRetries, attempts)
    }

    /** Mounting, before the effect calls `connect`. */
    constructor ()
      ensures State() == Initial()
      ensures Valid(State())
    {
      messages := [];
      input := "";
      isConnected := false;
      isStreaming := false;
      debugLogs := [];
      socket := NoSocket;
      response := "";
      traceId := "";
      outbox := [];
      pendingRetries := 0;
      attempts := 0;
    }

    /** `connect`. */
    method Connect(now: string)
      modifies this
      ensures State() == ChatSession.Connect(old(State()), now)
    {
      if socket == Open {
        return;
      }
      debugLogs := PushLog(debugLogs, Entry(now, "Connecting to " + StreamUrl));
      socket := Connecting;
      attempts := attempts + 1;
    }

    /** The socket's `onopen`. */
    method HandleOpen(now: string)
      modifies this
      ensures State() == OnOpen(old(State()), now)
    {
      isConnected := true;
      socket := Open;
      debugLogs := PushLog(debugLogs, Entry(now, "WebSocket connected"));
    }

    /** The socket's `onclose`: a reconnect is scheduled. */
    method HandleClose(now: string)
      modifies this
      ensures State() == OnClose(old(State()), now)
    {
      isConnected := false;
      socket := Closed;
      debugLogs := PushLog(debugLogs, Entry(now, "WebSocket disconnected"));
      pendingRetries := pendingRetries + 1;
    }

    /** The socket's `onerror`. */
    method HandleError(now: string, description: string)
      modifies this
      ensures State() == OnSocketError(old(State()), now, description)
    {
      debugLogs := PushLog(debugLogs, Entry(now, "WebSocket error: " + description));
    }

    /** A reconnect timer fires. */
    method FireRetry(now: string)
      requires pendingRetries > 0
      modifies this
      ensures State() == OnRetry(old(State()), now)
    {
      pendingRetries := pendingRetries - 1;
      Connect(now);
    }

    /** The input's `onChange`. */
    method EditInput(text: string)
      modifies this
      ensures State() == OnInput(old(State()), text)
    {
      input := text;
    }

    /** `sendMessage`, with `userId` the id drawn for the user message. */
    method SendMessage(now: string, userId: string)
      modifies this
      ensures State() == ChatSession.SendMessage(old(State()), now, userId)
    {
      var text := Trim(input);
      if text == [] || socket == NoSocket || isStreaming {
        return;
      }
      SubmitMessage(now, userId);
      if socket == Connecting {
        // `send` throws on a socket that is still connecting
        return;
      }
      StartStream(text);
    }

    /**
     * Adding the user message and logging the send. Only a step of `SendMessage`, not a
     * handler of its own: called alone (during a stream, say) it can break
     * `ChatSession.Valid`.
     */
    method SubmitMessage(now: string, userId: string)
      modifies this
      ensures State() == Submit(old(State()), now, userId)
    {
      var text := Trim(input);
      messages := messages + [Message(userId, User, text, None)];
      debugLogs := PushLog(debugLogs, Entry(now, "Sending message: \"" + Prefix(text, LoggedPrefix) + "...\""));
    }

    /**
     * Handing the text to the socket, adding the placeholder and starting
     * the stream. Only a step of `SendMessage`, not a
     * handler of its own: called alone (during a stream, say) it can break
     * `ChatSession.Valid`.
     */
    method StartStream(text: string)
      modifies this
      ensures State() == ChatSession.StartStream(old(State()), text)
    {
      outbox := outbox + [text];
      messages := messages + [Message(Placeholder, Assistant, "", None)];
      isStreaming := true;
      response := "";
      traceId := "";
      input := "";
    }

    /** The socket's `onmessage`, with `finalId` the id drawn if the frame is `done`. */
    method HandleMessage(f: Frame, now: string, finalId: string)
      modifies this
      ensures State() == OnMessage(old(State()), f, now, finalId)
    {
      if f.Malformed? {
        debugLogs := PushLog(debugLogs, Entry(now, "Parse error: " + f.reason));
        return;
      }
      ReceiveFrame(f, now);
      ApplyFrame(f, now, finalId);
    }

    /**
     * The first half of `onmessage` for a parsed frame: logging it and
     * adopting its trace id. Only a step of `HandleMessage`, not
     * a handler of its own: called alone it can break `ChatSession.Valid`.
     */
    method ReceiveFrame(f: Frame, now: string)
      requires !f.Malformed?
      modifies this
      ensures State() == Receive(old(State()), f, now)
    {
      var shown := if Given(f.traceId) then f.traceId.value else "N/A";
      debugLogs := PushLog(debugLogs, Entry(now, "Received: type=" + KindName(f) + ", trace_id=" + shown));
      if Given(f.traceId) && f.traceId.value != traceId {
        traceId := f.traceId.value;
        debugLogs := PushLog(debugLogs, Entry(now, "New trace_id: " + traceId));
      }
    }

    /**
     * The second half: what the frame's type calls for. The message list
     * is replaced through the same updaters `setMessages` is given. Only a step of `HandleMessage`, not
     * a handler of its own: called alone it can break `ChatSession.Valid`.
     */
    method ApplyFrame(f: Frame, now: string, finalId: string)
      requires !f.Malformed?
      modifies this
      ensures State() == Apply(old(State()), f, now, finalId)
    {
      match f {
        case Chunk(content, _) => ApplyChunk(content);
        case Done(_) => ApplyDone(now, finalId);
        case Error(error, _) => ApplyError(now, error);
        case Other(_, _) =>
      }
    }

    /**
     * A chunk with content extends the reply and shows it in a trailing
     * placeholder. Only a step of `HandleMessage`, not
     * a handler of its own: called alone it can break `ChatSession.Valid`.
     */
    method ApplyChunk(content: Option<string>)
      modifies this
      ensures forall trace :: State() == Apply(old(State()), Chunk(content, trace), "", "")
    {
      if Given(content) {
        response := response + content.value;
        messages := ShowChunk(messages, response, traceId);
      }
    }

    /**
     * `done` finalizes the placeholder, ends the stream and clears the
     * reply. Only a step of `HandleMessage`, not
     * a handler of its own: called alone it can break `ChatSession.Valid`.
     */
    method ApplyDone(now: string, finalId: string)
      modifies this
      ensures forall trace :: State() == Apply(old(State()), Done(trace), now, finalId)
    {
      messages := Finalize(messages, finalId, traceId);
      isStreaming := false;
      response := "";
      debugLogs := PushLog(debugLogs, Entry(now, "Stream complete. Final trace_id: " + traceId));
    }

    /**
     * `error` is logged and ends the stream. Only a step of `HandleMessage`, not
     * a handler of its own: called alone it can break `ChatSession.Valid`.
     */
    method ApplyError(now: string, error: Option<string>)
      modifies this
      ensures forall trace :: State() == Apply(old(State()), Error(error, trace), now, "")
    {
      debugLogs := PushLog(debugLogs, Entry(now, "Error: " + error.GetOr("undefined")));
      isStreaming := false;
    }
  }
}
