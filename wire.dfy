/** Values exchanged by the vessel-side peer: opaque handles for the foreign
    objects it drives, the control messages of the signaling channel, the
    observable effects it has on the outside world, and the errors it raises. */
module Wire {

  datatype Option<T> = None | Some(value: T) {
    function GetOr(default: T): T {
      if Some? then value else default
    }
  }

  /** Handles for objects created by the browser: a WebSocket, an
      RTCPeerConnection, a timer, and a message processor handed back by the
      host application. Only their identity matters. */
  datatype Socket = Socket(id: nat)
  datatype Conn = Conn(id: nat)
  datatype Timer = Timer(id: nat)
  datatype Proc = Proc(id: nat)

  /** A sub-stream tracked by the registry: a data channel or a media stream.
      `canStop` and `canClose` say whether it exposes `stop()` and `close()`. */
  datatype Stream = Stream(id: nat, name: string, ordered: bool, canStop: bool, canClose: bool)

  /** A JavaScript scalar, with the language's notion of truthiness. */
  datatype Value = Null | Bool(b: bool) | Num(n: int) | Str(s: string)

  predicate Truthy(v: Value) {
    match v
    case Null => false
    case Bool(b) => b
    case Num(n) => n != 0
    case Str(s) => s != ""
  }

  /** An ICE candidate; `EndOfCandidates` is the null candidate that ends gathering. */
  datatype Candidate = EndOfCandidates | Candidate(line: string)

  datatype SdpKind = Offer | Answer
  datatype Description = Description(kind: SdpKind, body: string)

  /** The `request` object a monitoring centre sends to a vessel. */
  datatype Request = Request(conning: Option<Value>, iceServers: Option<seq<string>>)

  /** One control message. Each field is `None` when the key is absent (or null). */
  datatype Msg = Msg(
    iceServers: Option<seq<string>>,
    ice: Option<Candidate>,
    sdp: Option<Description>,
    request: Option<Request>,
    hangup: Option<Value>,
    bye: Option<Value>,
    nmea: Option<string>,
    capabilities: Option<string>,
    guidance: Option<string>)

  const Blank := Msg(None, None, None, None, None, None, None, None, None)

  function IceMsg(c: Candidate): Msg { Blank.(ice := Some(c)) }
  function SdpMsg(d: Description): Msg { Blank.(sdp := Some(d)) }
  const ByeMsg := Blank.(bye := Some(Bool(true)))
  const HangupMsg := Blank.(hangup := Some(Bool(true)))
  function StatusMsg(nmea: Option<string>): Msg { Blank.(nmea := nmea) }
  function Handshake(capabilities: string, guidance: string, nmea: Option<string>): Msg {
    Blank.(capabilities := Some(capabilities), guidance := Some(guidance), nmea := nmea)
  }

  /** `msgObj.ice` is truthy: a real candidate, not null. */
  predicate CarriesCandidate(m: Msg) {
    m.ice.Some? && m.ice.value.Candidate?
  }

  /** `msgObj.hangup` is truthy. */
  predicate CarriesHangup(m: Msg) {
    m.hangup.Some? && Truthy(m.hangup.value)
  }

  /** Optional callbacks the host application may install. */
  datatype Hook = OnWsOpen | OnWsClose | OnDataChannel | OnStream | OnConnected | OnHangup | OnMessage | OnDisconnected

  /** A call into one of those callbacks, with its argument. */
  datatype Notice =
    | WsOpened(ws: Socket)
    | WsClosed(ws: Socket)
    | DataChannelOpened(ch: Stream)
    | StreamAdded(st: Stream)
    | Connected(reason: Option<string>)
    | HungUp(flag: Value)
    | Message(m: Msg)
    | Disconnected

  /** Everything the peer does to objects it does not own, in the order it does it. */
  datatype Effect =
    | SocketCreated(ws: Socket, url: string, protocol: string)
    | Sent(ws: Socket, msg: Msg)
    | SocketCloseScheduled(ws: Socket, delayMs: nat)
    | ConnectionCreated(c: Conn, iceServers: Option<seq<string>>)
    | ChannelCreated(c: Conn, ch: Stream)
    | CandidateAdded(c: Conn, cand: Candidate)
    | RemoteDescriptionSet(c: Conn, d: Description)
    | LocalDescriptionSet(c: Conn, d: Description)
    | HandlersDetached(c: Conn)
    | Stopped(st: Stream)
    | Closed(st: Stream)
    | ConnectionClosed(c: Conn)
    | Delivered(p: Proc, payload: string)
    | ChannelSent(ch: Stream, payload: string)
    | Notified(n: Notice)
    | TimerSet(t: Timer, delayMs: nat)
    | TimerCleared(t: Timer)
    | Alerted(text: string)

  /** The exceptions the code raises. */
  datatype Error =
    | NoSocket            // sendMessage without a socket
    | NoConnection        // a member of `this.connection` read while it is unset
    | NoConning           // `this.conning.send` while `conning` is unset
    | MissingMmsi         // contactMOC before an identity is set
    | MissingStatus       // contactMOC reads `this.status.nmea` before any status exists
    | InvalidRequest      // a request without a `conning` field
    | SocketInTdz         // register reads the `ws` binding before its declaration
    | MalformedPayload    // the parse-error branch reads an undefined variable

  datatype Outcome = Pass | Fail(error: Error)

  datatype Result<T> = Ok(value: T) | Err(error: Error)

  /** The messages sent on socket `s`, in the order they were sent. */
  function SentOn(log: seq<Effect>, s: Socket): seq<Msg> {
    if log == [] then []
    else (if log[0].Sent? && log[0].ws == s then [log[0].msg] else []) + SentOn(log[1..], s)
  }

  /** The payloads sent on channel `ch`, in the order they were sent. */
  function SentOnChannel(log: seq<Effect>, ch: Stream): seq<string> {
    if log == [] then []
    else (if log[0].ChannelSent? && log[0].ch == ch then [log[0].payload] else []) + SentOnChannel(log[1..], ch)
  }

  /** Reading a log in pieces: what was sent on a socket over `a + b` is what
      was sent over `a` followed by what was sent over `b`. */
  lemma {:induction false} SentOnConcat(a: seq<Effect>, b: seq<Effect>, s: Socket)
    ensures SentOn(a + b, s) == SentOn(a, s) + SentOn(b, s)
  {
    if a == [] {
      assert a + b == b;
    } else {
      assert (a + b)[0] == a[0] && (a + b)[1..] == a[1..] + b;
      SentOnConcat(a[1..], b, s);
    }
  }

  lemma {:induction false} SentOnChannelConcat(a: seq<Effect>, b: seq<Effect>, ch: Stream)
    ensures SentOnChannel(a + b, ch) == SentOnChannel(a, ch) + SentOnChannel(b, ch)
  {
    if a == [] {
      assert a + b == b;
    } else {
      assert (a + b)[0] == a[0] && (a + b)[1..] == a[1..] + b;
      SentOnChannelConcat(a[1..], b, ch);
    }
  }

  /** One effect at a time: what `e` contributes, then what follows it. */
  lemma SentOnCons(e: Effect, rest: seq<Effect>, s: Socket)
    ensures SentOn([e] + rest, s) == (if e.Sent? && e.ws == s then [e.msg] else []) + SentOn(rest, s)
  {
    assert ([e] + rest)[1..] == rest;
  }

  lemma SentOnChannelCons(e: Effect, rest: seq<Effect>, ch: Stream)
    ensures SentOnChannel([e] + rest, ch) == (if e.ChannelSent? && e.ch == ch then [e.payload] else []) + SentOnChannel(rest, ch)
  {
    assert ([e] + rest)[1..] == rest;
  }
}
