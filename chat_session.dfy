/**
 * The chat console's session logic as values: its state, the inbound frames
 * of the streaming protocol, and one function per event handler giving the
 * state after the event. The console class (module ChatConsole) runs the
 * same handlers on mutable fields and is proved to agree with these.
 */
module ChatSession {
  import opened Wrappers
  import opened Text

  /** The id of the assistant message that is still being streamed. */
  const Placeholder: string := "streaming"
  /** The debug log keeps at most this many entries. */
  const LogCapacity: nat := 100
  /** How many characters of an outgoing message its log entry shows. */
  const LoggedPrefix: nat := 50
  const StreamUrl: string := "ws://localhost:8000/api/chat/stream"

  datatype Role = User | Assistant | System

  datatype Message = Message(id: string, role: Role, content: string, traceId: Option<string>)

  /**
   * An inbound frame as the message handler sees it after `JSON.parse`:
   * one of the three protocol types, a parsed object of any other (or no)
   * type, or text that does not parse to an object.
   */
  datatype Frame =
    | Chunk(content: Option<string>, traceId: Option<string>)
    | Done(traceId: Option<string>)
    | Error(error: Option<string>, traceId: Option<string>)
    | Other(kind: string, traceId: Option<string>)
    | Malformed(reason: string)

  /** The socket held in `wsRef`, by its `readyState`; `NoSocket` before the first connect. */
  datatype SocketState = NoSocket | Connecting | Open | Closed

  datatype Session = Session(
    messages: seq<Message>,
    input: string,
    isConnected: bool,
    isStreaming: bool,
    debugLogs: seq<string>,
    socket: SocketState,
    /** `currentResponseRef`: the reply text received so far. */
    response: string,
    /** `currentTraceIdRef`: the trace id of the current exchange. */
    traceId: string,
    /** The `message` of every frame handed to `ws.send`, oldest first. */
    outbox: seq<string>,
    /** Reconnect timers scheduled by `onclose` that have not fired yet. */
    pendingRetries: nat,
    /** Sockets created by `connect`. */
    attempts: nat)

  /** The state when the console mounts, before `connect` runs. */
  function Initial(): Session {
    Session([], "", false, false, [], NoSocket, "", "", [], 0, 0)
  }

  /** A JavaScript optional string counts as given only when present and not empty. */
  predicate Given(s: Option<string>) {
    s.Some? && s.value != ""
  }

  // ---------------------------------------------------------------- debug log

  function Entry(now: string, text: string): string {
    "[" + now + "] " + text
  }

  /**
   * The last `n` elements of `s`, or all of them when there are fewer: `slice(-n)`
   * for the `n > 0` the log uses (99 and 100). For `n == 0` this gives `[]`,
   * where JavaScript's `slice(-0)` gives the whole array.
   */
  function Last<T>(s: seq<T>, n: nat): (r: seq<T>)
    ensures |r| <= n && |r| <= |s|
  {
    if |s| <= n then s else s[|s| - n..]
  }

  /**
   * `addDebugLog`'s update, `[...prev.slice(-99), entry]`: the new entry
   * is last, after at most the 99 newest old entries in their order.
   */
  function PushLog(logs: seq<string>, entry: string): (r: seq<string>)
    ensures |r| <= LogCapacity
    ensures |r| == if |logs| < LogCapacity then |logs| + 1 else LogCapacity
    ensures r[|r| - 1] == entry
    ensures forall i :: 0 <= i < |r| - 1 ==> r[i] == logs[|logs| - (|r| - 1) + i]
  {
    Last(logs, LogCapacity - 1) + [entry]
  }

  /** Adding entries one by one. */
  function PushAll(logs: seq<string>, entries: seq<string>): seq<string>
    decreases |entries|
  {
    if entries == [] then logs else PushAll(PushLog(logs, entries[0]), entries[1..])
  }

  /** One push keeps the newest 100 of the old entries and the new one. */
  lemma PushLogIsLast(logs: seq<string>, entry: string)
    ensures PushLog(logs, entry) == Last(logs + [entry], LogCapacity)
  {
    var r := PushLog(logs, entry);
    var w := Last(logs + [entry], LogCapacity);
    assert |r| == |w|;
    forall i | 0 <= i < |r| ensures r[i] == w[i] {
    }
  }

  /**
   * However many entries are logged, the log holds exactly the newest 100
   * of everything logged (the old log included), in order.
   */
  lemma {:induction false} PushAllIsLast(logs: seq<string>, entries: seq<string>)
    requires |logs| <= LogCapacity
    ensures PushAll(logs, entries) == Last(logs + entries, LogCapacity)
    decreases |entries|
  {
    if entries == [] {
      assert logs + entries == logs;
    } else {
      var e, rest := entries[0], entries[1..];
      var pushed := PushLog(logs, e);
      calc {
        PushAll(logs, entries);
        PushAll(pushed, rest);
        { PushAllIsLast(pushed, rest); }
        Last(pushed + rest, LogCapacity);
        { PushLogIsLast(logs, e); }
        Last(Last(logs + [e], LogCapacity) + rest, LogCapacity);
        { LastOfLasts(logs + [e], rest); }
        Last(logs + [e] + rest, LogCapacity);
        { assert logs + [e] + rest == logs + entries; }
        Last(logs + entries, LogCapacity);
      }
    }
  }

  /** Trimming to the newest 100 before appending changes nothing about the newest 100 after. */
  lemma LastOfLasts(s: seq<string>, t: seq<string>)
    ensures Last(Last(s, LogCapacity) + t, LogCapacity) == Last(s + t, LogCapacity)
  {
    var a := Last(Last(s, LogCapacity) + t, LogCapacity);
    var b := Last(s + t, LogCapacity);
    assert |a| == |b|;
    forall i | 0 <= i < |a| ensures a[i] == b[i] {
      if |t| < LogCapacity && |s| > LogCapacity {
        var k := i - (LogCapacity - |t|);
        if k < 0 {
          assert a[i] == Last(s, LogCapacity)[|s| - |s| + i + |t|];
        }
      }
    }
  }

  // ------------------------------------------------------------ connection

  /**
   * `connect`: with an open socket, nothing; otherwise a new socket is
   * created (connecting), and the attempt is logged.
   */
  function Connect(s: Session, now: string): Session {
    if s.socket == Open then s
    else s.(debugLogs := PushLog(s.debugLogs, Entry(now, "Connecting to " + StreamUrl)),
            socket := Connecting, attempts := s.attempts + 1)
  }

  /** `onopen`. */
  function OnOpen(s: Session, now: string): Session {
    s.(isConnected := true, socket := Open,
       debugLogs := PushLog(s.debugLogs, Entry(now, "WebSocket connected")))
  }

  /** `onclose`: disconnected, logged, and one reconnect scheduled. The stream flag is left alone. */
  function OnClose(s: Session, now: string): Session {
    s.(isConnected := false, socket := Closed,
       debugLogs := PushLog(s.debugLogs, Entry(now, "WebSocket disconnected")),
       pendingRetries := s.pendingRetries + 1)
  }

  /** `onerror`: logged only. */
  function OnSocketError(s: Session, now: string, description: string): Session {
    s.(debugLogs := PushLog(s.debugLogs, Entry(now, "WebSocket error: " + description)))
  }

  /** A scheduled reconnect timer fires and calls `connect`. */
  function OnRetry(s: Session, now: string): Session
    requires s.pendingRetries > 0
  {
    Connect(s.(pendingRetries := s.pendingRetries - 1), now)
  }

  /** Typing in the input. */
  function OnInput(s: Session, text: string): Session {
    s.(input := text)
  }

  // ------------------------------------------------------------------ send

  /** The guard of `sendMessage`: text after trimming, a socket, and no stream in flight. */
  predicate CanSend(s: Session) {
    Trim(s.input) != [] && s.socket != NoSocket && !s.isStreaming
  }

  /**
   * `sendMessage`, with `userId` the id drawn for the user message. The
   * user message and the log entry come first; `ws.send` on a socket that
   * is still connecting throws, which ends the handler there. Otherwise the
   * text is sent, an empty assistant placeholder is appended, streaming
   * starts with an empty reply and trace, and the input is cleared.
   */
  function SendMessage(s: Session, now: string, userId: string): Session {
    if !CanSend(s) then s
    else if s.socket == Connecting then Submit(s, now, userId)
    else StartStream(Submit(s, now, userId), Trim(s.input))
  }

  /** The first half of an accepted send: the user message with the trimmed text, and its log entry. */
  function Submit(s: Session, now: string, userId: string): Session {
    var text := Trim(s.input);
    s.(messages := s.messages + [Message(userId, User, text, None)],
       debugLogs := PushLog(s.debugLogs, Entry(now, "Sending message: \"" + Prefix(text, LoggedPrefix) + "...\"")))
  }

  /** The second half, once `ws.send` returned: the placeholder is added and the stream starts. */
  function StartStream(s: Session, text: string): Session {
    s.(outbox := s.outbox + [text],
       messages := s.messages + [Message(Placeholder, Assistant, "", None)],
       isStreaming := true, response := "", traceId := "", input := "")
  }

  // --------------------------------------------------------------- receive

  function KindName(f: Frame): string
    requires !f.Malformed?
  {
    match f
    case Chunk(_, _) => "chunk"
    case Done(_) => "done"
    case Error(_, _) => "error"
    case Other(kind, _) => kind
  }

  /** The last message is the assistant placeholder. */
  predicate EndsWithPlaceholder(msgs: seq<Message>) {
    |msgs| > 0 && msgs[|msgs| - 1].role == Assistant && msgs[|msgs| - 1].id == Placeholder
  }

  /** The chunk updater: a trailing assistant placeholder shows the reply so far and the trace. */
  function ShowChunk(msgs: seq<Message>, reply: string, trace: string): seq<Message> {
    if EndsWithPlaceholder(msgs)
    then msgs[|msgs| - 1 := msgs[|msgs| - 1].(content := reply, traceId := Some(trace))]
    else msgs
  }

  /** The done updater: a trailing message with the placeholder id gets its final id and the trace. */
  function Finalize(msgs: seq<Message>, finalId: string, trace: string): seq<Message> {
    if |msgs| > 0 && msgs[|msgs| - 1].id == Placeholder
    then msgs[|msgs| - 1 := msgs[|msgs| - 1].(id := finalId, traceId := Some(trace))]
    else msgs
  }

  /** The trace id tracked after a frame: a given id that differs from the current one replaces it. */
  function AdoptedTrace(s: Session, f: Frame): string
    requires !f.Malformed?
  {
    if Given(f.traceId) && f.traceId.value != s.traceId then f.traceId.value else s.traceId
  }

  /**
   * `ws.onmessage`, with `finalId` the id drawn if the frame is `done`. A
   * frame that does not parse is logged and changes nothing else. Any other
   * frame is logged, may replace the tracked trace, and then: a chunk with
   * content extends the reply and shows it in the placeholder; `done`
   * finalizes the placeholder and ends the stream; `error` is logged and
   * ends the stream; anything else does nothing more.
   */
  function OnMessage(s: Session, f: Frame, now: string, finalId: string): Session {
    if f.Malformed? then
      s.(debugLogs := PushLog(s.debugLogs, Entry(now, "Parse error: " + f.reason)))
    else
      Apply(Receive(s, f, now), f, now, finalId)
  }

  /** The part common to every parsed frame: it is logged, and its trace id may replace the tracked one. */
  function Receive(s: Session, f: Frame, now: string): Session
    requires !f.Malformed?
  {
    var shown := if Given(f.traceId) then f.traceId.value else "N/A";
    var logs := PushLog(s.debugLogs, Entry(now, "Received: type=" + KindName(f) + ", trace_id=" + shown));
    var trace := AdoptedTrace(s, f);
    if trace != s.traceId then s.(debugLogs := PushLog(logs, Entry(now, "New trace_id: " + trace)), traceId := trace)
    else s.(debugLogs := logs)
  }

  /** The part that depends on the frame's type, once it is received. */
  function Apply(s: Session, f: Frame, now: string, finalId: string): Session
    requires !f.Malformed?
  {
    match f
    case Chunk(content, _) =>
      if Given(content) then
        var reply := s.response + content.value;
        s.(response := reply, messages := ShowChunk(s.messages, reply, s.traceId))
      else s
    case Done(_) =>
      s.(messages := Finalize(s.messages, finalId, s.traceId), isStreaming := false, response := "",
         debugLogs := PushLog(s.debugLogs, Entry(now, "Stream complete. Final trace_id: " + s.traceId)))
    case Error(error, _) =>
      s.(debugLogs := PushLog(s.debugLogs, Entry(now, "Error: " + error.GetOr("undefined"))), isStreaming := false)
    case Other(_, _) => s
  }

  // ---------------------------------------------------------------- events

  /** One event the console reacts to; each handler is run to completion before the next. */
  datatype Event =
    | Typed(text: string)
    | ConnectCalled
    | SocketOpened
    | SocketClosed
    | SocketFailed(description: string)
    | RetryTimer
    | SendPressed(userId: string)
    | FrameArrived(frame: Frame, finalId: string)

  /** The state after one event, at time `now`. A retry timer fires only when one is scheduled. */
  function Step(s: Session, now: string, e: Event): Session {
    match e
    case Typed(text) => OnInput(s, text)
    case ConnectCalled => Connect(s, now)
    case SocketOpened => OnOpen(s, now)
    case SocketClosed => OnClose(s, now)
    case SocketFailed(d) => OnSocketError(s, now, d)
    case RetryTimer => if s.pendingRetries > 0 then OnRetry(s, now) else s
    case SendPressed(userId) => SendMessage(s, now, userId)
    case FrameArrived(f, finalId) => OnMessage(s, f, now, finalId)
  }

  /** An event together with the time it happens at. */
  datatype Timed = At(now: string, event: Event)

  /** The state after a run of events, each handled at its own time. */
  function Run(s: Session, events: seq<Timed>): Session
    decreases |events|
  {
    if events == [] then s else Run(Step(s, events[0].now, events[0].event), events[1..])
  }

  /**
   * What every handler keeps true: the log holds at most 100 entries, and
   * while a reply is streaming the last message is the assistant
   * placeholder showing exactly the reply received so far.
   */
  predicate Valid(s: Session) {
    |s.debugLogs| <= LogCapacity &&
    (s.isStreaming ==> EndsWithPlaceholder(s.messages) && s.messages[|s.messages| - 1].content == s.response)
  }

  lemma InitialValid()
    ensures Valid(Initial())
  {
  }

  lemma StepPreservesValid(s: Session, now: string, e: Event)
    requires Valid(s)
    ensures Valid(Step(s, now, e))
  {
    match e
    case SendPressed(userId) => SendPreservesValid(s, now, userId);
    case FrameArrived(f, finalId) => MessagePreservesValid(s, f, now, finalId);
    case _ =>
  }

  lemma SendPreservesValid(s: Session, now: string, userId: string)
    requires Valid(s)
    ensures Valid(SendMessage(s, now, userId))
  {
  }

  lemma MessagePreservesValid(s: Session, f: Frame, now: string, finalId: string)
    requires Valid(s)
    ensures Valid(OnMessage(s, f, now, finalId))
  {
    var r := OnMessage(s, f, now, finalId);
    if f.Chunk? && s.isStreaming {
      ChunkStep(s, now, f, finalId);
    }
  }

  lemma {:induction false} RunPreservesValid(s: Session, events: seq<Timed>)
    requires Valid(s)
    ensures Valid(Run(s, events))
    decreases |events|
  {
    if events != [] {
      StepPreservesValid(s, events[0].now, events[0].event);
      RunPreservesValid(Step(s, events[0].now, events[0].event), events[1..]);
    }
  }

  // ------------------------------------------------- connection properties

  /**
   * A close followed by its reconnect timer leaves a new socket connecting
   * and no timer pending beyond those already pending. A stream that was
   * in flight stays marked as streaming, so sending stays blocked.
   */
  lemma CloseThenRetryReconnects(s: Session, closedAt: string, firedAt: string)
    ensures var r := Run(s, [At(closedAt, SocketClosed), At(firedAt, RetryTimer)]);
      r.socket == Connecting && !r.isConnected && r.attempts == s.attempts + 1 &&
      r.pendingRetries == s.pendingRetries && r.isStreaming == s.isStreaming && r.messages == s.messages
  {
    var close, fire := At(closedAt, SocketClosed), At(firedAt, RetryTimer);
    RunSingle(OnClose(s, closedAt), fire);
    assert [close, fire] == [close] + [fire];
    RunAppend(s, [close], [fire]);
    RunSingle(s, close);
  }

  /** `connect` does nothing on an open socket; otherwise it creates one more socket, even beside one still connecting. */
  lemma ConnectOnlyWhenNotOpen(s: Session, now: string)
    ensures var r := Connect(s, now);
      (s.socket == Open ==> r == s) &&
      (s.socket != Open ==> r.socket == Connecting && r.attempts == s.attempts + 1 && r.messages == s.messages)
  {
  }

  // ------------------------------------------------------- send properties

  /** A send with blank input, before any socket exists, or during a stream changes nothing at all. */
  lemma SendRejected(s: Session, now: string, userId: string)
    requires Trim(s.input) == [] || s.socket == NoSocket || s.isStreaming
    ensures SendMessage(s, now, userId) == s
  {
  }

  /**
   * An accepted send on a socket past its handshake appends exactly the
   * user message with the trimmed text and the empty assistant
   * placeholder, hands the text to the socket, starts streaming, resets
   * the reply and the trace, and clears the input.
   */
  lemma SendAccepted(s: Session, now: string, userId: string)
    requires CanSend(s) && s.socket != Connecting
    ensures var r := SendMessage(s, now, userId);
      r.messages == s.messages + [Message(userId, User, Trim(s.input), None), Message(Placeholder, Assistant, "", None)] &&
      r.outbox == s.outbox + [Trim(s.input)] &&
      r.isStreaming && r.response == "" && r.traceId == "" && r.input == "" &&
      r.isConnected == s.isConnected && r.socket == s.socket && |r.debugLogs| <= LogCapacity
  {
  }

  /**
   * On a socket still connecting, `ws.send` throws after the user message
   * was added: the message is shown but nothing is sent, no placeholder is
   * added and no stream starts.
   */
  lemma SendWhileConnecting(s: Session, now: string, userId: string)
    requires CanSend(s) && s.socket == Connecting
    ensures var r := SendMessage(s, now, userId);
      r.messages == s.messages + [Message(userId, User, Trim(s.input), None)] &&
      r.outbox == s.outbox && !r.isStreaming && r.input == s.input
  {
  }

  // ---------------------------------------------------- receive properties

  /** Whatever its type, a parsed frame with a trace id other than the tracked one replaces it. */
  lemma TraceAdopted(s: Session, f: Frame, now: string, finalId: string)
    requires !f.Malformed?
    ensures OnMessage(s, f, now, finalId).traceId == if Given(f.traceId) then f.traceId.value else s.traceId
  {
  }

  /**
   * A chunk with content appends it to the reply. A trailing placeholder
   * then shows the whole reply and the tracked trace; otherwise the
   * messages are left as they were. Apart from the log and the trace,
   * nothing else changes: not the stream flag, the input or the connection.
   */
  lemma ChunkAppends(s: Session, content: string, trace: Option<string>, now: string, finalId: string)
    requires content != ""
    ensures var r := OnMessage(s, Chunk(Some(content), trace), now, finalId);
      r.response == s.response + content &&
      |r.messages| == |s.messages| && r.isStreaming == s.isStreaming &&
      (forall i :: 0 <= i < |s.messages| - 1 ==> r.messages[i] == s.messages[i]) &&
      (EndsWithPlaceholder(s.messages) ==>
        var last := r.messages[|r.messages| - 1];
        last.id == Placeholder && last.role == Assistant && last.content == r.response &&
        last.traceId == Some(r.traceId)) &&
      (!EndsWithPlaceholder(s.messages) ==> r.messages == s.messages) &&
      r == s.(debugLogs := r.debugLogs, traceId := r.traceId, response := r.response, messages := r.messages)
  {
  }

  /**
   * `done` ends the stream and clears the reply. The history keeps its
   * length and every message but the last; a last message with the
   * placeholder id gets the fresh id, which is not the placeholder id,
   * and the tracked trace, and keeps its role and content. Apart from the
   * log and the trace, nothing else changes.
   */
  lemma DoneFinalizes(s: Session, trace: Option<string>, now: string, finalId: string)
    requires finalId != Placeholder
    ensures var r := OnMessage(s, Done(trace), now, finalId);
      !r.isStreaming && r.response == "" &&
      |r.messages| == |s.messages| &&
      (forall i :: 0 <= i < |s.messages| - 1 ==> r.messages[i] == s.messages[i]) &&
      (|s.messages| > 0 ==>
        var was, now := s.messages[|s.messages| - 1], r.messages[|r.messages| - 1];
        if was.id == Placeholder
        then now == was.(id := finalId, traceId := Some(r.traceId)) && now.id != Placeholder
        else now == was) &&
      r == s.(debugLogs := r.debugLogs, traceId := r.traceId, messages := r.messages, isStreaming := false, response := "")
  {
    var f := Done(trace);
    var s1 := Receive(s, f, now);
    ReceiveKeeps(s, f, now);
    assert OnMessage(s, f, now, finalId) == Apply(s1, f, now, finalId);
  }

  /** Receiving a parsed frame changes only the log and the trace. */
  lemma ReceiveKeeps(s: Session, f: Frame, now: string)
    requires !f.Malformed?
    ensures var r := Receive(s, f, now); r == s.(debugLogs := r.debugLogs, traceId := r.traceId)
  {
  }

  /**
   * `error` ends the stream and changes no message: the placeholder keeps
   * its partial reply and its id. Apart from the log and the trace, nothing
   * else changes.
   */
  lemma ErrorKeepsPartialReply(s: Session, error: Option<string>, trace: Option<string>, now: string, finalId: string)
    ensures var r := OnMessage(s, Error(error, trace), now, finalId);
      !r.isStreaming && r.messages == s.messages && r.response == s.response &&
      r.outbox == s.outbox && r.input == s.input && r.isConnected == s.isConnected &&
      r == s.(debugLogs := r.debugLogs, traceId := r.traceId, isStreaming := false)
  {
  }

  /**
   * After an `error` frame ends a stream, the next accepted send adds a
   * second placeholder: the earlier one keeps the placeholder id for good,
   * and only the new one is updated by later chunks and `done`.
   */
  lemma ErrorThenSendKeepsOldPlaceholder(s: Session, error: Option<string>, trace: Option<string>,
                                         now: string, finalId: string, userId: string)
    requires Valid(s) && s.isStreaming
    requires Trim(s.input) != [] && s.socket != NoSocket && s.socket != Connecting
    ensures var r := SendMessage(OnMessage(s, Error(error, trace), now, finalId), now, userId);
      var n := |s.messages|;
      |r.messages| == n + 2 && r.messages[n - 1].id == Placeholder && r.messages[n + 1].id == Placeholder &&
      r.isStreaming
  {
    var e := OnMessage(s, Error(error, trace), now, finalId);
    ErrorKeepsPartialReply(s, error, trace, now, finalId);
    assert CanSend(e) && e.socket != Connecting;
    SendAccepted(e, now, userId);
  }

  /** A frame that does not parse only adds a parse-error entry to the log. */
  lemma MalformedOnlyLogged(s: Session, reason: string, now: string, finalId: string)
    ensures OnMessage(s, Malformed(reason), now, finalId) ==
      s.(debugLogs := PushLog(s.debugLogs, Entry(now, "Parse error: " + reason)))
  {
  }

  /** The reply text carried by a chunk frame; empty for one without content. */
  function ChunkText(f: Frame): string
    requires f.Chunk?
  {
    if Given(f.content) then f.content.value else ""
  }

  /** The concatenation of the contents of a run of chunk frames, in order, with nothing between them. */
  function Streamed(frames: seq<Frame>): string
    requires forall i :: 0 <= i < |frames| ==> frames[i].Chunk?
    decreases |frames|
  {
    if frames == [] then "" else ChunkText(frames[0]) + Streamed(frames[1..])
  }

  /** The arrival of each frame at its own time. */
  function Frames(frames: seq<Frame>, times: seq<string>, finalId: string): seq<Timed>
    requires |times| == |frames|
  {
    seq(|frames|, i requires 0 <= i < |frames| => At(times[i], FrameArrived(frames[i], finalId)))
  }

  /** One chunk during a stream: the stream stays open and the placeholder shows the longer reply. */
  lemma ChunkStep(s: Session, now: string, f: Frame, finalId: string)
    requires Valid(s) && s.isStreaming && f.Chunk?
    ensures var r := OnMessage(s, f, now, finalId);
      Valid(r) && r.isStreaming && r.response == s.response + ChunkText(f) &&
      |r.messages| == |s.messages| &&
      (forall i :: 0 <= i < |s.messages| - 1 ==> r.messages[i] == s.messages[i])
  {
  }

  /**
   * During a stream, chunks c1..cn leave the stream open and make the
   * placeholder show the reply so far followed by c1++...++cn; no message
   * before it changes and none is added.
   */
  lemma {:induction false} ChunksConcatenate(s: Session, frames: seq<Frame>, times: seq<string>, finalId: string)
    requires Valid(s) && s.isStreaming
    requires forall i :: 0 <= i < |frames| ==> frames[i].Chunk?
    requires |times| == |frames|
    ensures var r := Run(s, Frames(frames, times, finalId));
      Valid(r) && r.isStreaming && r.response == s.response + Streamed(frames) &&
      |r.messages| == |s.messages| &&
      (forall i :: 0 <= i < |s.messages| - 1 ==> r.messages[i] == s.messages[i])
    decreases |frames|
  {
    var evs := Frames(frames, times, finalId);
    if frames == [] {
      assert evs == [];
      assert s.response + Streamed(frames) == s.response;
    } else {
      var s1 := OnMessage(s, frames[0], times[0], finalId);
      ChunkStep(s, times[0], frames[0], finalId);
      assert evs[0] == At(times[0], FrameArrived(frames[0], finalId));
      assert Step(s, times[0], evs[0].event) == s1;
      assert evs[1..] == Frames(frames[1..], times[1..], finalId);
      assert Run(s, evs) == Run(s1, Frames(frames[1..], times[1..], finalId));
      ChunksConcatenate(s1, frames[1..], times[1..], finalId);
      var c, rest := ChunkText(frames[0]), Streamed(frames[1..]);
      assert Streamed(frames) == c + rest;
      assert s1.response == s.response + c;
      AppendAssociates(s.response, c, rest);
    }
  }

  lemma AppendAssociates(a: string, b: string, c: string)
    ensures (a + b) + c == a + (b + c)
  {
  }

  /**
   * A whole exchange: an accepted send, chunks c1..cn, then `done`. The
   * history has grown by exactly the user message with the trimmed input
   * and one assistant message whose content is c1++...++cn and whose id is
   * the fresh one; the stream is over; nothing earlier changed.
   */
  lemma Exchange(s: Session, sentAt: string, userId: string, frames: seq<Frame>, times: seq<string>,
                 doneTrace: Option<string>, doneAt: string, finalId: string)
    requires Valid(s) && CanSend(s) && s.socket != Connecting
    requires finalId != Placeholder
    requires forall i :: 0 <= i < |frames| ==> frames[i].Chunk?
    requires |times| == |frames|
    ensures var r := Run(s, [At(sentAt, SendPressed(userId))] + Frames(frames, times, finalId) +
                            [At(doneAt, FrameArrived(Done(doneTrace), finalId))]);
      var n := |s.messages|;
      |r.messages| == n + 2 && r.messages[..n] == s.messages &&
      r.messages[n] == Message(userId, User, Trim(s.input), None) &&
      r.messages[n + 1].id == finalId && r.messages[n + 1].role == Assistant &&
      r.messages[n + 1].content == Streamed(frames) &&
      r.messages[n + 1].traceId == Some(r.traceId) &&
      !r.isStreaming && r.response == "" && Valid(r)
  {
    var mid := Frames(frames, times, finalId);
    var s1 := SendMessage(s, sentAt, userId);
    var s2 := Run(s1, mid);
    var s3 := OnMessage(s2, Done(doneTrace), doneAt, finalId);
    ExchangeRun(s, sentAt, userId, mid, Done(doneTrace), doneAt, finalId);
    SendAccepted(s, sentAt, userId);
    SendPreservesValid(s, sentAt, userId);
    ChunksConcatenate(s1, frames, times, finalId);
    DoneFinalizes(s2, doneTrace, doneAt, finalId);
    MessagePreservesValid(s2, Done(doneTrace), doneAt, finalId);
    ExchangeStages(s.messages, Message(userId, User, Trim(s.input), None), s1.messages, s2.messages, s3.messages,
                   Streamed(frames), finalId, s3.traceId);
  }

  /** The run of an exchange, taken apart: the send, the chunks, then the final frame. */
  lemma ExchangeRun(s: Session, sentAt: string, userId: string, mid: seq<Timed>, last: Frame, lastAt: string,
                    finalId: string)
    ensures Run(s, [At(sentAt, SendPressed(userId))] + mid + [At(lastAt, FrameArrived(last, finalId))]) ==
      OnMessage(Run(SendMessage(s, sentAt, userId), mid), last, lastAt, finalId)
  {
    var first := [At(sentAt, SendPressed(userId))];
    var done := [At(lastAt, FrameArrived(last, finalId))];
    var sent := SendMessage(s, sentAt, userId);
    RunSingle(s, first[0]);
    assert Run(s, first) == sent;
    RunAppend(s, first, mid);
    var streamed := Run(s, first + mid);
    assert streamed == Run(sent, mid);
    RunAppend(s, first + mid, done);
    RunSingle(streamed, done[0]);
    assert Run(streamed, done) == OnMessage(streamed, last, lastAt, finalId);
  }

  /** A run of one event is that event's step. */
  lemma RunSingle(s: Session, e: Timed)
    ensures Run(s, [e]) == Step(s, e.now, e.event)
  {
    assert [e][1..] == [];
  }

  /** The history through the three stages of an exchange, as sequences. */
  lemma ExchangeStages(h: seq<Message>, user: Message, h1: seq<Message>, h2: seq<Message>, h3: seq<Message>,
                       reply: string, finalId: string, trace: string)
    requires h1 == h + [user, Message(Placeholder, Assistant, "", None)]
    requires |h2| == |h1| && (forall i :: 0 <= i < |h1| - 1 ==> h2[i] == h1[i])
    requires h2[|h2| - 1].id == Placeholder && h2[|h2| - 1].role == Assistant && h2[|h2| - 1].content == reply
    requires |h3| == |h2| && (forall i :: 0 <= i < |h2| - 1 ==> h3[i] == h2[i])
    requires h3[|h3| - 1] == h2[|h2| - 1].(id := finalId, traceId := Some(trace))
    ensures var n := |h|;
      |h3| == n + 2 && h3[..n] == h && h3[n] == user &&
      h3[n + 1].id == finalId && h3[n + 1].role == Assistant &&
      h3[n + 1].content == reply && h3[n + 1].traceId == Some(trace)
  {
    var n := |h|;
    assert h1[n] == user;
    forall i | 0 <= i < n ensures h3[i] == h[i] {
      assert h1[i] == h[i];
    }
  }

  /** Running two runs one after the other is running their concatenation. */
  lemma {:induction false} RunAppend(s: Session, a: seq<Timed>, b: seq<Timed>)
    ensures Run(s, a + b) == Run(Run(s, a), b)
    decreases |a|
  {
    if a == [] {
      assert a + b == b;
    } else {
      assert (a + b)[0] == a[0] && (a + b)[1..] == a[1..] + b;
      RunAppend(Step(s, a[0].now, a[0].event), a[1..], b);
    }
  }
}
