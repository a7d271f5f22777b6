/** The gateway connection (bhaicord/websocket.py): opcodes, the frames the
    client sends, the zlib-stream marker test and `DiscordWebSocket`, whose
    fields each received frame updates. Inflating and JSON decoding are not
    modelled: the payload they produce is handed to `HandleFrame`. */
module Gateway {
  import opened Wrappers
  import opened PyValues
  import PyDict

  // Gateway opcodes
  const DISPATCH: int := 0
  const HEARTBEAT: int := 1
  const IDENTIFY: int := 2
  const PRESENCE_UPDATE: int := 3
  const VOICE_STATE_UPDATE: int := 4
  const RESUME: int := 6
  const RECONNECT: int := 7
  const REQUEST_GUILD_MEMBERS: int := 8
  const INVALID_SESSION: int := 9
  const HELLO: int := 10
  const HEARTBEAT_ACK: int := 11

  /** The LEN/NLEN bytes of the empty stored block that ends every zlib sync
      flush (section 3.2.4 of RFC 1951): each complete gateway message ends with them. */
  const ZLIB_SUFFIX: seq<byte> := [0x00, 0x00, 0xFF, 0xFF]

  /** `msg[-4:]`: the last four bytes, or all of a shorter message. */
  function LastFour(msg: seq<byte>): seq<byte>
  {
    if |msg| >= 4 then msg[|msg| - 4..] else msg
  }

  /** `_decompress`: the buffer handed to the inflater when the message ends in the
      marker, and nothing otherwise. Fragments are not accumulated. */
  function Decompress(msg: seq<byte>): (r: Option<seq<byte>>)
    ensures r.Some? <==> |msg| >= 4 && msg[|msg| - 4..] == ZLIB_SUFFIX
    ensures r.Some? ==> r.value == msg
  {
    if LastFour(msg) == ZLIB_SUFFIX then Some(msg) else None
  }

  /** The identify frame: op 2 with the token, the intents, fixed connection
      properties and a null presence. */
  function Identify(token: string, intents: int): (r: Value)
    ensures Index(r, "op") == Ok(VInt(IDENTIFY))
    ensures Index(r, "d").Ok?
    ensures Index(Index(r, "d").value, "token") == Ok(VStr(token))
    ensures Index(Index(r, "d").value, "intents") == Ok(VInt(intents))
    ensures Index(Index(r, "d").value, "presence") == Ok(VNone)
  {
    var properties := [("$os", VStr("linux")), ("$browser", VStr("bhaicord")), ("$device", VStr("bhaicord"))];
    var d := [("token", VStr(token)), ("intents", VInt(intents)), ("properties", VDict(properties)), ("presence", VNone)];
    var frame := [("op", VInt(IDENTIFY)), ("d", VDict(d))];
    PyDict.LookupAt(frame, 0);
    PyDict.LookupAt(frame, 1);
    PyDict.LookupAt(d, 0);
    PyDict.LookupAt(d, 1);
    PyDict.LookupAt(d, 3);
    VDict(frame)
  }

  /** The resume frame: op 6 with the token, the session id and the last sequence. */
  function Resume(token: string, sessionId: Value, sequence: Value): (r: Value)
    ensures Index(r, "op") == Ok(VInt(RESUME))
    ensures Index(r, "d").Ok?
    ensures Index(Index(r, "d").value, "token") == Ok(VStr(token))
    ensures Index(Index(r, "d").value, "session_id") == Ok(sessionId)
    ensures Index(Index(r, "d").value, "seq") == Ok(sequence)
  {
    var d := [("token", VStr(token)), ("session_id", sessionId), ("seq", sequence)];
    var frame := [("op", VInt(RESUME)), ("d", VDict(d))];
    PyDict.LookupAt(frame, 0);
    PyDict.LookupAt(frame, 1);
    PyDict.LookupAt(d, 0);
    PyDict.LookupAt(d, 1);
    PyDict.LookupAt(d, 2);
    VDict(frame)
  }

  /** The heartbeat frame: op 1 carrying the last sequence (None before any). */
  function Heartbeat(sequence: Value): (r: Value)
    ensures Index(r, "op") == Ok(VInt(HEARTBEAT))
    ensures Index(r, "d") == Ok(sequence)
    ensures PyDict.Keys(r.entries) == ["op", "d"]
  {
    var frame := [("op", VInt(HEARTBEAT)), ("d", sequence)];
    PyDict.LookupAt(frame, 0);
    PyDict.LookupAt(frame, 1);
    VDict(frame)
  }

  /** What the socket receives. */
  datatype WsMessage =
    | CloseMessage               // WSMsgType.CLOSE
    | Binary(data: seq<byte>)    // WSMsgType.BINARY
    | OtherMessage               // any other message type, ignored

  /** What handling a message does outside the object's fields. */
  datatype Action =
    | Send(payload: Value)                      // `sock.send_json(payload)`
    | Forward(eventName: Value, eventData: Value)  // `client.event_handler(t, d)`
    | CloseSocket                               // `sock.close()`
    | Connect                                   // `session.ws_connect(...)`: a new socket

  /** The payload of a binary message whose marker is present and which inflated
      and decoded (`decoded` is that opaque outcome). */
  function Payload(msg: WsMessage, decoded: Result<Value>): Option<Value>
  {
    if msg.Binary? && Decompress(msg.data).Some? && decoded.Ok? then Some(decoded.value) else None
  }

  /** A decoded payload that has a "d" entry (so it is a dict) and whose "op" equals `code`. */
  predicate OpIs(p: Value, code: int)
  {
    Index(p, "d").Ok? && Index(p, "op").Ok? && EqualsInt(Index(p, "op").value, code)
  }

  /** `payload_json.get("s")` for a payload that is a dict. */
  function SequenceOf(p: Value): Value
    requires p.VDict?
  {
    Get1(p, "s").value
  }

  /** The mutable fields of the socket, together. */
  datatype Fields = Fields(
    heartbeatInterval: Value,     // None until Hello
    sequence: Value,              // the "s" of the last decoded frame
    lastHeartbeat: Option<real>,  // when the last heartbeat was sent (seconds)
    sessionId: Value,             // from the READY dispatch
    hasDisconnected: bool,        // set by a Reconnect
    latency: Option<real>,        // milliseconds
    connected: bool,              // a socket has been opened
    closed: bool)                 // that socket is closed

  /** The fields of a socket that has never connected. */
  const Initial: Fields := Fields(VNone, VNone, None, VNone, false, None, false, false)

  /** What `start` sends once the new socket is open. */
  function StartActions(token: string, s: Fields): (r: seq<Action>)
    ensures |r| >= 1 && r[0] == Connect
    ensures s.hasDisconnected <==> |r| == 2
    ensures s.hasDisconnected ==> r[1] == Send(Resume(token, s.sessionId, s.sequence))
  {
    if s.hasDisconnected then [Connect, Send(Resume(token, s.sessionId, s.sequence))] else [Connect]
  }

  /** The outcome of handling one message: what it did outside the object
      (or the exception it raised) and the new fields. */
  datatype Outcome = Outcome(result: Result<seq<Action>>, state: Fields)

  /** One pass of the `__run_socket` loop, as a function of the fields before it.
      `handled` is what awaiting `client.event_handler(t, d)` gives for a
      dispatch: the handler builds the event object first, and an exception
      raised there leaves the loop. */
  function Receive(token: string, intents: int, s: Fields, msg: WsMessage, decoded: Result<Value>,
                   handled: Result<()>, now: real): (r: Outcome)
    ensures !msg.Binary? ==> r.result.Ok? && r.state == s.(closed := s.closed || msg.CloseMessage?)
    ensures Payload(msg, decoded).None? && msg.Binary? ==> r.result.Err? && r.state == s
    ensures r.state.lastHeartbeat == s.lastHeartbeat
  {
    match msg
    case CloseMessage => Outcome(Ok([CloseSocket]), s.(closed := true))
    case OtherMessage => Outcome(Ok([]), s)
    case Binary(data) =>
      if Decompress(data).None? then Outcome(Fail(TypeError), s)   // `json.loads(None)`
      else if decoded.Err? then Outcome(Err(decoded.error), s)
      else OnPayload(token, intents, s, decoded.value, handled, now)
  }

  /** The handling of a decoded payload: "d" is read first, then the sequence is
      stored, then "op" is read and compared with each opcode in turn. */
  function OnPayload(token: string, intents: int, s: Fields, p: Value, handled: Result<()>, now: real): (r: Outcome)
    ensures r.state.lastHeartbeat == s.lastHeartbeat
    ensures r.state.hasDisconnected <==> s.hasDisconnected || OpIs(p, RECONNECT)
    ensures OpIs(p, RECONNECT) ==> r.result.Ok?
    ensures !OpIs(p, RECONNECT) ==> r.state.connected == s.connected && r.state.closed == s.closed
  {
    var d := Index(p, "d");
    if d.Err? then Outcome(Err(d.error), s)
    else
      var s1 := s.(sequence := SequenceOf(p));
      var op := Index(p, "op");
      if op.Err? then Outcome(Err(op.error), s1)
      else if EqualsInt(op.value, HELLO) then OnHello(token, intents, s1, d.value)
      else if EqualsInt(op.value, DISPATCH) then OnDispatch(s1, p, d.value, handled)
      else if EqualsInt(op.value, HEARTBEAT_ACK) then OnAck(s1, now)
      else if EqualsInt(op.value, RECONNECT) then OnReconnect(token, s1)
      else Outcome(Ok([]), s1)
  }

  /** Hello: the interval is stored and the identify frame sent. */
  function OnHello(token: string, intents: int, s: Fields, d: Value): (r: Outcome)
    ensures r.state == s.(heartbeatInterval := r.state.heartbeatInterval)
  {
    var interval := Index(d, "heartbeat_interval");
    if interval.Err? then Outcome(Err(interval.error), s)
    else Outcome(Ok([Send(Identify(token, intents))]), s.(heartbeatInterval := interval.value))
  }

  /** Dispatch: a READY stores its session id, then the event handler is awaited. */
  function OnDispatch(s: Fields, p: Value, d: Value, handled: Result<()>): (r: Outcome)
    ensures r.state == s.(sessionId := r.state.sessionId)
  {
    var t := Index(p, "t");
    if t.Err? then Outcome(Err(t.error), s)
    else if t.value == VStr("READY") then
      var sid := Index(d, "session_id");
      if sid.Err? then Outcome(Err(sid.error), s)
      else Dispatched(t.value, d, handled, s.(sessionId := sid.value))
    else Dispatched(t.value, d, handled, s)
  }

  /** HeartbeatAck: the latency, once the interval is known. */
  function OnAck(s: Fields, now: real): (r: Outcome)
    ensures r.state == s.(latency := r.state.latency)
  {
    if s.heartbeatInterval.VNone? then Outcome(Ok([]), s)
    else if s.lastHeartbeat.None? then Outcome(Fail(TypeError), s)   // `now - None`
    else Outcome(Ok([]), s.(latency := Some((now - s.lastHeartbeat.value) * 1000.0)))
  }

  /** Reconnect: the socket is closed and `start` runs again. */
  function OnReconnect(token: string, s: Fields): (r: Outcome)
    ensures r.result.Ok? && r.state == s.(hasDisconnected := true, connected := true, closed := false)
  {
    var s2 := s.(closed := true, hasDisconnected := true);
    Outcome(Ok([CloseSocket] + StartActions(token, s2)), s2.(connected := true, closed := false))
  }

  /** The event handed to the client's handler, or what the handler raised. */
  function Dispatched(t: Value, d: Value, handled: Result<()>, s: Fields): Outcome
  {
    if handled.Err? then Outcome(Err(handled.error), s) else Outcome(Ok([Forward(t, d)]), s)
  }

  /** A received message together with what inflating and decoding it gave, what
      the event handler did with it when it is a dispatch, and the clock when it
      arrived. */
  datatype Incoming = Incoming(msg: WsMessage, decoded: Result<Value>, handled: Result<()>, now: real)

  /** `acc` done first, then `o`. */
  function Prepend(acc: seq<Action>, o: Outcome): Outcome
  {
    if o.result.Ok? then Outcome(Ok(acc + o.result.value), o.state) else o
  }

  /** Prepending two action lists one after the other prepends their concatenation. */
  lemma PrependAssoc(acc: seq<Action>, more: seq<Action>, o: Outcome)
    ensures Prepend(acc, Prepend(more, o)) == Prepend(acc + more, o)
  {
    if o.result.Ok? {
      assert acc + (more + o.result.value) == (acc + more) + o.result.value;
    }
  }

  /** The `while self.sock` loop over the messages received: it stops only at
      the first exception. Closing the socket does not end it (the socket object
      stays truthy); `msgs` is the finite run of messages observed. */
  function Drive(token: string, intents: int, s: Fields, msgs: seq<Incoming>): (r: Outcome)
    ensures r.state.lastHeartbeat == s.lastHeartbeat
    ensures (forall k :: 0 <= k < |msgs| ==> !msgs[k].msg.Binary?) ==> r.result.Ok?
    decreases |msgs|
  {
    if |msgs| == 0 then Outcome(Ok([]), s)
    else
      var o := Receive(token, intents, s, msgs[0].msg, msgs[0].decoded, msgs[0].handled, msgs[0].now);
      if o.result.Err? then o
      else Prepend(o.result.value, Drive(token, intents, o.state, msgs[1..]))
  }

  // ---------------------------------------------------------------------------
  // What one message does

  /** Every frame with a "d" entry overwrites the sequence with its "s" (None when
      absent), whatever its opcode and even when handling it later raises. */
  lemma SequenceTracksLastFrame(token: string, intents: int, s: Fields, p: Value, handled: Result<()>, now: real)
    requires Index(p, "d").Ok?
    ensures OnPayload(token, intents, s, p, handled, now).state.sequence == Get1(p, "s").value
  {
  }

  /** Hello stores the interval and answers with exactly one identify frame. */
  lemma HelloIdentifies(token: string, intents: int, s: Fields, p: Value, handled: Result<()>, now: real)
    requires OpIs(p, HELLO)
    requires Index(Index(p, "d").value, "heartbeat_interval").Ok?
    ensures OnPayload(token, intents, s, p, handled, now).result == Ok([Send(Identify(token, intents))])
    ensures OnPayload(token, intents, s, p, handled, now).state.heartbeatInterval
            == Index(Index(p, "d").value, "heartbeat_interval").value
  {
  }

  /** Only a READY dispatch changes the session id, and it stores the one it
      carries, whether or not the handler then raises. */
  lemma OnlyReadySetsSession(token: string, intents: int, s: Fields, msg: WsMessage, decoded: Result<Value>,
                             handled: Result<()>, now: real)
    ensures var o := Receive(token, intents, s, msg, decoded, handled, now);
      o.state.sessionId != s.sessionId ==>
        && Payload(msg, decoded).Some?
        && OpIs(Payload(msg, decoded).value, DISPATCH)
        && Index(Payload(msg, decoded).value, "t") == Ok(VStr("READY"))
        && Index(Index(Payload(msg, decoded).value, "d").value, "session_id") == Ok(o.state.sessionId)
  {
    if Payload(msg, decoded).Some? {
      PayloadOnlyReadySetsSession(token, intents, s, decoded.value, handled, now);
    }
  }

  /** The same, for a decoded payload. */
  lemma PayloadOnlyReadySetsSession(token: string, intents: int, s: Fields, p: Value, handled: Result<()>, now: real)
    ensures var o := OnPayload(token, intents, s, p, handled, now);
      o.state.sessionId != s.sessionId ==>
        && OpIs(p, DISPATCH)
        && Index(p, "t") == Ok(VStr("READY"))
        && Index(Index(p, "d").value, "session_id") == Ok(o.state.sessionId)
  {
    var o := OnPayload(token, intents, s, p, handled, now);
    if Index(p, "d").Ok? && Index(p, "op").Ok? && !EqualsInt(Index(p, "op").value, DISPATCH) {
      assert o.state.sessionId == s.sessionId;
    }
  }

  /** Only Hello changes the heartbeat interval. */
  lemma OnlyHelloSetsInterval(token: string, intents: int, s: Fields, msg: WsMessage, decoded: Result<Value>,
                              handled: Result<()>, now: real)
    ensures var o := Receive(token, intents, s, msg, decoded, handled, now);
      o.state.heartbeatInterval != s.heartbeatInterval ==>
        Payload(msg, decoded).Some? && OpIs(Payload(msg, decoded).value, HELLO)
  {
    if Payload(msg, decoded).Some? {
      PayloadOnlyHelloSetsInterval(token, intents, s, decoded.value, handled, now);
    }
  }

  /** The same, for a decoded payload. */
  lemma PayloadOnlyHelloSetsInterval(token: string, intents: int, s: Fields, p: Value, handled: Result<()>, now: real)
    ensures var o := OnPayload(token, intents, s, p, handled, now);
      o.state.heartbeatInterval != s.heartbeatInterval ==> OpIs(p, HELLO)
  {
    var o := OnPayload(token, intents, s, p, handled, now);
    if Index(p, "d").Ok? && Index(p, "op").Ok? && !EqualsInt(Index(p, "op").value, HELLO) {
      assert o.state.heartbeatInterval == s.heartbeatInterval;
    }
  }

  /** A dispatch is forwarded exactly once, with its name and data, exactly when
      it has a "t", a READY carries a "session_id", and the handler returns; the
      only other field it changes is the session id of a READY. */
  lemma DispatchForwarded(token: string, intents: int, s: Fields, p: Value, handled: Result<()>, now: real)
    requires OpIs(p, DISPATCH)
    ensures var o := OnPayload(token, intents, s, p, handled, now);
      var t := Index(p, "t"); var d := Index(p, "d").value;
      && ((t.Ok? && (t.value == VStr("READY") ==> Index(d, "session_id").Ok?) && handled.Ok?)
          ==> o.result == Ok([Forward(t.value, d)]))
      && (o.result.Ok? ==> t.Ok? && (t.value == VStr("READY") ==> Index(d, "session_id").Ok?) && handled.Ok?)
    ensures Index(p, "t") != Ok(VStr("READY")) ==>
      OnPayload(token, intents, s, p, handled, now).state == s.(sequence := Get1(p, "s").value)
  {
    var d := Index(p, "d").value;
    var s1 := s.(sequence := SequenceOf(p));
    assert OnPayload(token, intents, s, p, handled, now) == OnDispatch(s1, p, d, handled);
  }

  /** A READY dispatch with a "session_id" stores it, with the frame's sequence,
      and then forwards the event or raises what the handler raised. */
  lemma ReadyStoresSession(token: string, intents: int, s: Fields, p: Value, handled: Result<()>, now: real)
    requires OpIs(p, DISPATCH) && Index(p, "t") == Ok(VStr("READY"))
    requires Index(Index(p, "d").value, "session_id").Ok?
    ensures var o := OnPayload(token, intents, s, p, handled, now);
      var d := Index(p, "d").value;
      && o.state == s.(sequence := Get1(p, "s").value, sessionId := Index(d, "session_id").value)
      && o.result == (if handled.Ok? then Ok([Forward(VStr("READY"), d)]) else Err(handled.error))
  {
    var d := Index(p, "d").value;
    var s1 := s.(sequence := SequenceOf(p));
    assert OnPayload(token, intents, s, p, handled, now) == OnDispatch(s1, p, d, handled);
  }

  /** A dispatch whose handler raises ends the pass with that exception; a READY
      has already stored its session id by then. */
  lemma HandlerErrorPropagates(token: string, intents: int, s: Fields, p: Value, handled: Result<()>, now: real)
    requires OpIs(p, DISPATCH) && Index(p, "t").Ok?
    requires Index(p, "t").value == VStr("READY") ==> Index(Index(p, "d").value, "session_id").Ok?
    requires handled.Err?
    ensures OnPayload(token, intents, s, p, handled, now).result == Err(handled.error)
    ensures Index(p, "t").value == VStr("READY") ==>
      OnPayload(token, intents, s, p, handled, now).state.sessionId == Index(Index(p, "d").value, "session_id").value
  {
  }

  /** A heartbeat acknowledgement: before Hello it changes nothing but the
      sequence; afterwards it sets the latency to the milliseconds since the last
      heartbeat, or raises TypeError when no heartbeat was ever sent. The latency
      is never negative when the clock has not gone back. */
  lemma AckMeasuresLatency(token: string, intents: int, s: Fields, p: Value, handled: Result<()>, now: real)
    requires OpIs(p, HEARTBEAT_ACK)
    ensures var o := OnPayload(token, intents, s, p, handled, now);
      var s1 := s.(sequence := Get1(p, "s").value);
      && (s.heartbeatInterval.VNone? ==> o == Outcome(Ok([]), s1))
      && (!s.heartbeatInterval.VNone? && s.lastHeartbeat.None? ==> o == Outcome(Fail(TypeError), s1))
      && (!s.heartbeatInterval.VNone? && s.lastHeartbeat.Some? ==>
            o == Outcome(Ok([]), s1.(latency := Some((now - s.lastHeartbeat.value) * 1000.0))))
      && (!s.heartbeatInterval.VNone? && s.lastHeartbeat.Some? && now >= s.lastHeartbeat.value ==>
            o.state.latency.value >= 0.0)
  {
    var s1 := s.(sequence := SequenceOf(p));
    assert OnPayload(token, intents, s, p, handled, now) == OnAck(s1, now);
  }

  /** Only a heartbeat acknowledgement changes the latency. */
  lemma OnlyAckSetsLatency(token: string, intents: int, s: Fields, msg: WsMessage, decoded: Result<Value>,
                           handled: Result<()>, now: real)
    ensures var o := Receive(token, intents, s, msg, decoded, handled, now);
      o.state.latency != s.latency ==>
        Payload(msg, decoded).Some? && OpIs(Payload(msg, decoded).value, HEARTBEAT_ACK)
  {
    if Payload(msg, decoded).Some? {
      PayloadOnlyAckSetsLatency(token, intents, s, decoded.value, handled, now);
    }
  }

  /** The same, for a decoded payload. */
  lemma PayloadOnlyAckSetsLatency(token: string, intents: int, s: Fields, p: Value, handled: Result<()>, now: real)
    ensures var o := OnPayload(token, intents, s, p, handled, now);
      o.state.latency != s.latency ==> OpIs(p, HEARTBEAT_ACK)
  {
    var o := OnPayload(token, intents, s, p, handled, now);
    if Index(p, "d").Ok? && Index(p, "op").Ok? && !EqualsInt(Index(p, "op").value, HEARTBEAT_ACK) {
      assert o.state.latency == s.latency;
    }
  }

  /** Any other opcode (Invalid Session among them) is read and ignored: only the
      sequence changes, and nothing is sent or raised. */
  lemma OtherOpcodesIgnored(token: string, intents: int, s: Fields, p: Value, handled: Result<()>, now: real)
    requires Index(p, "d").Ok? && Index(p, "op").Ok?
    requires !OpIs(p, HELLO) && !OpIs(p, DISPATCH) && !OpIs(p, HEARTBEAT_ACK) && !OpIs(p, RECONNECT)
    ensures OnPayload(token, intents, s, p, handled, now) == Outcome(Ok([]), s.(sequence := Get1(p, "s").value))
  {
  }

  /** Invalid Session (op 9) in particular is ignored. */
  lemma InvalidSessionIgnored(token: string, intents: int, s: Fields, p: Value, handled: Result<()>, now: real)
    requires Index(p, "d").Ok? && Index(p, "op") == Ok(VInt(INVALID_SESSION))
    ensures OnPayload(token, intents, s, p, handled, now) == Outcome(Ok([]), s.(sequence := Get1(p, "s").value))
  {
    OtherOpcodesIgnored(token, intents, s, p, handled, now);
  }

  /** Reconnect closes the socket, opens a new one and resumes the session with
      the sequence of the Reconnect frame itself. */
  lemma ReconnectResumes(token: string, intents: int, s: Fields, p: Value, handled: Result<()>, now: real)
    requires OpIs(p, RECONNECT)
    ensures OnPayload(token, intents, s, p, handled, now).result
            == Ok([CloseSocket, Connect, Send(Resume(token, s.sessionId, Get1(p, "s").value))])
    ensures OnPayload(token, intents, s, p, handled, now).state.hasDisconnected
    ensures OnPayload(token, intents, s, p, handled, now).state.connected && !OnPayload(token, intents, s, p, handled, now).state.closed
  {
    var s2 := s.(sequence := SequenceOf(p), closed := true, hasDisconnected := true);
    assert StartActions(token, s2) == [Connect, Send(Resume(token, s.sessionId, Get1(p, "s").value))];
    assert [CloseSocket] + StartActions(token, s2) == [CloseSocket, Connect, Send(Resume(token, s.sessionId, Get1(p, "s").value))];
  }

  /** A message that raises leaves every field but the sequence and the session
      id as it was, and changes the session id only when it is a READY dispatch
      whose handler raised. */
  lemma ErrorsChangeOnlySequence(token: string, intents: int, s: Fields, msg: WsMessage, decoded: Result<Value>,
                                 handled: Result<()>, now: real)
    ensures var o := Receive(token, intents, s, msg, decoded, handled, now);
      o.result.Err? ==>
        && o.state == s.(sequence := o.state.sequence, sessionId := o.state.sessionId)
        && (o.state.sessionId != s.sessionId ==>
              && Payload(msg, decoded).Some?
              && OpIs(Payload(msg, decoded).value, DISPATCH)
              && Index(Payload(msg, decoded).value, "t") == Ok(VStr("READY"))
              && handled.Err? && o.result.error == handled.error)
  {
    if msg.Binary? && Decompress(msg.data).Some? && decoded.Ok? {
      PayloadErrorsChangeOnlySequence(token, intents, s, decoded.value, handled, now);
    }
  }

  /** The same, for a decoded payload. */
  lemma PayloadErrorsChangeOnlySequence(token: string, intents: int, s: Fields, p: Value, handled: Result<()>, now: real)
    ensures var o := OnPayload(token, intents, s, p, handled, now);
      o.result.Err? ==>
        && o.state == s.(sequence := o.state.sequence, sessionId := o.state.sessionId)
        && (o.state.sessionId != s.sessionId ==>
              && OpIs(p, DISPATCH) && Index(p, "t") == Ok(VStr("READY"))
              && handled.Err? && o.result.error == handled.error)
  {
    var o := OnPayload(token, intents, s, p, handled, now);
    PayloadOnlyReadySetsSession(token, intents, s, p, handled, now);
    if Index(p, "d").Ok? && Index(p, "op").Ok? && o.result.Err? {
      var op := Index(p, "op").value;
      assert !EqualsInt(op, RECONNECT) || EqualsInt(op, HELLO) || EqualsInt(op, DISPATCH) || EqualsInt(op, HEARTBEAT_ACK);
    }
  }

  // ---------------------------------------------------------------------------
  // What a run of messages does

  /** Running over `a + b` is running over `a`, then, unless that raised, over
      `b` from the fields `a` left, with the actions of both in order. */
  lemma {:induction false} DriveAppend(token: string, intents: int, s: Fields, a: seq<Incoming>, b: seq<Incoming>)
    ensures var first := Drive(token, intents, s, a);
      Drive(token, intents, s, a + b)
      == if first.result.Err? then first
         else Prepend(first.result.value, Drive(token, intents, first.state, b))
    decreases |a|
  {
    if |a| == 0 {
      assert a + b == b;
      var rest := Drive(token, intents, s, b);
      if rest.result.Ok? {
        assert [] + rest.result.value == rest.result.value;
      }
    } else {
      var m := a[0];
      var o := Receive(token, intents, s, m.msg, m.decoded, m.handled, m.now);
      assert (a + b)[0] == m;
      assert (a + b)[1..] == a[1..] + b;
      if o.result.Ok? {
        DriveAppend(token, intents, o.state, a[1..], b);
        var mid := Drive(token, intents, o.state, a[1..]);
        if mid.result.Ok? {
          PrependAssoc(o.result.value, mid.result.value, Drive(token, intents, mid.state, b));
        }
      }
    }
  }

  /** The run stops at the first exception: nothing after it is handled, whether
      it came from the frame itself or from the event handler. */
  lemma {:induction false} DriveStopsAtError(token: string, intents: int, s: Fields, msgs: seq<Incoming>, i: nat)
    requires i < |msgs|
    requires Drive(token, intents, s, msgs[..i]).result.Ok?
    requires Receive(token, intents, Drive(token, intents, s, msgs[..i]).state,
                     msgs[i].msg, msgs[i].decoded, msgs[i].handled, msgs[i].now).result.Err?
    ensures Drive(token, intents, s, msgs) == Receive(token, intents, Drive(token, intents, s, msgs[..i]).state,
                                                     msgs[i].msg, msgs[i].decoded, msgs[i].handled, msgs[i].now)
  {
    DriveSplitAt(token, intents, s, msgs, i);
    DriveRaisesAt(token, intents, Drive(token, intents, s, msgs[..i]).state, msgs, i);
  }

  /** Once the first `i` messages ran without raising, the run goes on from the
      fields they left. */
  lemma DriveSplitAt(token: string, intents: int, s: Fields, msgs: seq<Incoming>, i: nat)
    requires i <= |msgs|
    requires Drive(token, intents, s, msgs[..i]).result.Ok?
    ensures var before := Drive(token, intents, s, msgs[..i]);
      Drive(token, intents, s, msgs) == Prepend(before.result.value, Drive(token, intents, before.state, msgs[i..]))
  {
    assert msgs == msgs[..i] + msgs[i..];
    DriveAppend(token, intents, s, msgs[..i], msgs[i..]);
  }

  /** A run from message `i` whose first message raises ends with that message's outcome. */
  lemma DriveRaisesAt(token: string, intents: int, s: Fields, msgs: seq<Incoming>, i: nat)
    requires i < |msgs|
    requires Receive(token, intents, s, msgs[i].msg, msgs[i].decoded, msgs[i].handled, msgs[i].now).result.Err?
    ensures Drive(token, intents, s, msgs[i..]) == Receive(token, intents, s, msgs[i].msg, msgs[i].decoded, msgs[i].handled, msgs[i].now)
  {
    assert msgs[i..] == [msgs[i]] + msgs[i + 1..];
    DriveFirstRaises(token, intents, s, msgs[i], msgs[i + 1..]);
  }

  /** A run whose first message raises ends with that message's outcome. */
  lemma DriveFirstRaises(token: string, intents: int, s: Fields, m: Incoming, rest: seq<Incoming>)
    requires Receive(token, intents, s, m.msg, m.decoded, m.handled, m.now).result.Err?
    ensures Drive(token, intents, s, [m] + rest) == Receive(token, intents, s, m.msg, m.decoded, m.handled, m.now)
  {
    assert ([m] + rest)[0] == m;
  }

  /** Over any run, the only session id the socket ever holds besides the one
      it started with is one a READY dispatch carried. */
  lemma {:induction false} DriveSessionFromReady(token: string, intents: int, s: Fields, msgs: seq<Incoming>)
    ensures var r := Drive(token, intents, s, msgs).state.sessionId;
      r == s.sessionId ||
      exists k :: 0 <= k < |msgs| && Payload(msgs[k].msg, msgs[k].decoded).Some?
        && OpIs(Payload(msgs[k].msg, msgs[k].decoded).value, DISPATCH)
        && Index(Index(Payload(msgs[k].msg, msgs[k].decoded).value, "d").value, "session_id") == Ok(r)
    decreases |msgs|
  {
    if |msgs| > 0 {
      var o := Receive(token, intents, s, msgs[0].msg, msgs[0].decoded, msgs[0].handled, msgs[0].now);
      OnlyReadySetsSession(token, intents, s, msgs[0].msg, msgs[0].decoded, msgs[0].handled, msgs[0].now);
      if o.result.Ok? {
        DriveSessionFromReady(token, intents, o.state, msgs[1..]);
        var r := Drive(token, intents, o.state, msgs[1..]).state.sessionId;
        if r != o.state.sessionId {
          var k :| 0 <= k < |msgs[1..]| && Payload(msgs[1..][k].msg, msgs[1..][k].decoded).Some?
            && OpIs(Payload(msgs[1..][k].msg, msgs[1..][k].decoded).value, DISPATCH)
            && Index(Index(Payload(msgs[1..][k].msg, msgs[1..][k].decoded).value, "d").value, "session_id") == Ok(r);
          assert msgs[1..][k] == msgs[k + 1];
        }
      }
    }
  }

  class DiscordWebSocket {
    const token: string    // the client's bot token
    const intents: int

    var heartbeatInterval: Value
    var sequence: Value
    var lastHeartbeat: Option<real>
    var sessionId: Value
    var hasDisconnected: bool
    var latency: Option<real>
    var connected: bool
    var closed: bool

    function State(): Fields
      reads this
    {
      Fields(heartbeatInterval, sequence, lastHeartbeat, sessionId, hasDisconnected, latency, connected, closed)
    }

    constructor (token: string, intents: int)
      ensures this.token == token && this.intents == intents
      ensures State() == Initial
    {
      this.token := token;
      this.intents := intents;
      heartbeatInterval := VNone;
      sequence := VNone;
      lastHeartbeat := None;
      sessionId := VNone;
      hasDisconnected := false;
      latency := None;
      connected := false;
      closed := false;
    }

    /** `start`: opens a new socket and, after a Reconnect, sends a resume frame
        built from the current fields, which are not reset. */
    method Start() returns (out: seq<Action>)
      modifies this
      ensures State() == old(State()).(connected := true, closed := false)
      ensures out == StartActions(token, old(State()))
    {
      connected := true;
      closed := false;
      if hasDisconnected {
        out := [Connect, Send(Resume(token, sessionId, sequence))];
      } else {
        out := [Connect];
      }
    }

    /** `__send_heartbeat`: sends `{op: 1, d: sequence}` and records the time,
        unless the socket is closed; before any socket exists it raises. */
    method SendHeartbeat(now: real) returns (r: Result<seq<Action>>)
      modifies this
      ensures !old(connected) ==> r.Err? && r.error.kind == AttributeError && State() == old(State())
      ensures old(connected) && !old(closed) ==>
        r == Ok([Send(Heartbeat(sequence))]) && State() == old(State()).(lastHeartbeat := Some(now))
      ensures old(connected) && old(closed) ==> r == Ok([]) && State() == old(State())
    {
      if !connected {
        return Fail(AttributeError);   // `None.closed`
      }
      if !closed {
        r := Ok([Send(Heartbeat(sequence))]);
        lastHeartbeat := Some(now);
      } else {
        r := Ok([]);
      }
    }

    /** One pass of the `__run_socket` loop for a received message; `handled`
        is what the client's event handler does with a dispatch.  An `Err`
        result is the exception that ends the loop. */
    method HandleFrame(msg: WsMessage, decoded: Result<Value>, handled: Result<()>, now: real)
      returns (r: Result<seq<Action>>)
      modifies this
      ensures r == Receive(token, intents, old(State()), msg, decoded, handled, now).result
      ensures State() == Receive(token, intents, old(State()), msg, decoded, handled, now).state
    {
      match msg {
        case CloseMessage =>
          closed := true;
          return Ok([CloseSocket]);
        case OtherMessage =>
          return Ok([]);
        case Binary(data) =>
          if Decompress(data).None? {
            return Fail(TypeError);
          }
          if decoded.Err? {
            return Err(decoded.error);
          }
          r := HandlePayload(decoded.value, handled, now);
      }
    }

    method HandlePayload(payload: Value, handled: Result<()>, now: real) returns (r: Result<seq<Action>>)
      modifies this
      ensures r == OnPayload(token, intents, old(State()), payload, handled, now).result
      ensures State() == OnPayload(token, intents, old(State()), payload, handled, now).state
    {
      var d := Index(payload, "d");
      if d.Err? {
        return Err(d.error);
      }
      sequence := SequenceOf(payload);
      var op := Index(payload, "op");
      if op.Err? {
        return Err(op.error);
      }
      if EqualsInt(op.value, HELLO) {
        r := HandleHello(d.value);
      } else if EqualsInt(op.value, DISPATCH) {
        r := HandleDispatch(payload, d.value, handled);
      } else if EqualsInt(op.value, HEARTBEAT_ACK) {
        r := HandleAck(now);
      } else if EqualsInt(op.value, RECONNECT) {
        closed := true;
        hasDisconnected := true;
        var started := Start();
        r := Ok([CloseSocket] + started);
      } else {
        r := Ok([]);
      }
    }

    method HandleHello(d: Value) returns (r: Result<seq<Action>>)
      modifies this
      ensures r == OnHello(token, intents, old(State()), d).result
      ensures State() == OnHello(token, intents, old(State()), d).state
    {
      var interval := Index(d, "heartbeat_interval");
      if interval.Err? {
        return Err(interval.error);
      }
      heartbeatInterval := interval.value;
      r := Ok([Send(Identify(token, intents))]);
    }

    method HandleDispatch(payload: Value, d: Value, handled: Result<()>) returns (r: Result<seq<Action>>)
      modifies this
      ensures r == OnDispatch(old(State()), payload, d, handled).result
      ensures State() == OnDispatch(old(State()), payload, d, handled).state
    {
      var t := Index(payload, "t");
      if t.Err? {
        return Err(t.error);
      }
      if t.value == VStr("READY") {
        var sid := Index(d, "session_id");
        if sid.Err? {
          return Err(sid.error);
        }
        sessionId := sid.value;
      }
      if handled.Err? {
        return Err(handled.error);
      }
      r := Ok([Forward(t.value, d)]);
    }

    method HandleAck(now: real) returns (r: Result<seq<Action>>)
      modifies this
      ensures r == OnAck(old(State()), now).result
      ensures State() == OnAck(old(State()), now).state
    {
      if !heartbeatInterval.VNone? {
        if lastHeartbeat.None? {
          return Fail(TypeError);   // `now - None`
        }
        latency := Some((now - lastHeartbeat.value) * 1000.0);
      }
      r := Ok([]);
    }

    /** `__run_socket`'s loop over the messages the socket delivers: each is
        handled in order until one raises, from the frame or from the event
        handler; a close frame does not end it. */
    method Run(msgs: seq<Incoming>) returns (r: Result<seq<Action>>)
      modifies this
      ensures r == Drive(token, intents, old(State()), msgs).result
      ensures State() == Drive(token, intents, old(State()), msgs).state
    {
      var acc: seq<Action> := [];
      var i := 0;
      assert msgs[0..] == msgs;
      ghost var whole := Drive(token, intents, State(), msgs);
      if whole.result.Ok? {
        assert [] + whole.result.value == whole.result.value;
      }
      while i < |msgs|
        invariant 0 <= i <= |msgs|
        invariant Drive(token, intents, old(State()), msgs) == Prepend(acc, Drive(token, intents, State(), msgs[i..]))
        decreases |msgs| - i
      {
        ghost var before := State();
        var step := HandleFrame(msgs[i].msg, msgs[i].decoded, msgs[i].handled, msgs[i].now);
        ghost var o := Receive(token, intents, before, msgs[i].msg, msgs[i].decoded, msgs[i].handled, msgs[i].now);
        assert msgs[i..][0] == msgs[i];
        assert msgs[i..][1..] == msgs[i + 1..];
        if step.Err? {
          assert Drive(token, intents, before, msgs[i..]) == o;
          return step;
        }
        assert Drive(token, intents, before, msgs[i..]) == Prepend(step.value, Drive(token, intents, State(), msgs[i + 1..]));
        PrependAssoc(acc, step.value, Drive(token, intents, State(), msgs[i + 1..]));
        acc := acc + step.value;
        i := i + 1;
      }
      assert msgs[i..] == [];
      assert acc + [] == acc;
      r := Ok(acc);
    }
  }
}
