/** The peer: one signaling socket, at most one peer connection, and the
    registry of sub-streams carried by that connection. Every callback the
    browser would invoke is an event method here; what the peer does to the
    socket, the connection, the streams and the host's callbacks is appended
    to `log`. */
module PeerCore {
  import opened Wire
  import opened Registry

  /** A snapshot of the peer's mutable state, to relate a later state to an earlier one. */
  datatype PeerView = PeerView(
    ws: Option<Socket>, connection: Option<Conn>, connections: set<Conn>, streams: seq<Stream>,
    detached: set<Conn>, answering: multiset<Conn>, iceServers: Option<seq<string>>, nextId: nat, log: seq<Effect>)

  /** What the host's `ondatachannel` callback returned. */
  datatype HookReturn = NotAnArray | Processors(procs: seq<Proc>)

  datatype IceState = IceNew | IceChecking | IceConnected | IceCompleted | IceFailed | IceDisconnected | IceClosed
  datatype SignalingState = Stable | HaveLocalOffer | HaveRemoteOffer | HaveLocalAnswer | HaveRemoteAnswer | SignalingClosed
  datatype ConnectionState = ConnNew | ConnConnecting | ConnConnected | ConnDisconnected | ConnFailed | ConnClosed

  /** The connection states on which the peer lets go of its connection. */
  predicate DropsConnection(s: ConnectionState) {
    s == ConnClosed || s == ConnFailed || s == ConnDisconnected
  }

  /** The processors attached to an inbound channel: those the host's
      callback returned when it returned an array, otherwise none. */
  function ChannelProcessors(hooks: set<Hook>, returned: HookReturn): (procs: seq<Proc>)
    ensures procs != [] ==> OnDataChannel in hooks && returned == Processors(procs)
    ensures OnDataChannel in hooks && returned.Processors? ==> procs == returned.procs
  {
    if OnDataChannel in hooks && returned.Processors? then returned.procs else []
  }

  /** One inbound payload on a channel: every processor receives it, in list order. */
  function FanOut(procs: seq<Proc>, payload: string): (r: seq<Effect>)
    ensures |r| == |procs|
    ensures forall i :: 0 <= i < |procs| ==> r[i] == Delivered(procs[i], payload)
  {
    if procs == [] then [] else [Delivered(procs[0], payload)] + FanOut(procs[1..], payload)
  }

  /** `processMessage` reads `this.connection` without a guard for these fields. */
  predicate NeedsConnection(m: Msg) {
    CarriesCandidate(m) || m.sdp.Some?
  }

  predicate CarriesOffer(m: Msg) {
    m.sdp.Some? && m.sdp.value.kind == Offer
  }

  /** The calls `processMessage` makes on connection `c` for the negotiation fields of `m`. */
  function NegotiationEffects(c: Conn, m: Msg): seq<Effect> {
    (if CarriesCandidate(m) then [CandidateAdded(c, m.ice.value)] else [])
    + (if m.sdp.Some? then [RemoteDescriptionSet(c, m.sdp.value)] else [])
  }

  function NegotiationIfAny(c: Option<Conn>, m: Msg): seq<Effect> {
    if c.Some? then NegotiationEffects(c.value, m) else []
  }

  /** The hangup branch: `onHangup` with the flag, then teardown. */
  function HangupEffects(hooks: set<Hook>, c: Option<Conn>, streams: seq<Stream>, m: Msg): seq<Effect> {
    if CarriesHangup(m)
    then (if OnHangup in hooks then [Notified(HungUp(m.hangup.value))] else []) + TeardownIfAny(c, streams)
    else []
  }

  /** The last step: `onmessage` with the message itself. */
  function MessageEffects(hooks: set<Hook>, m: Msg): seq<Effect> {
    if OnMessage in hooks then [Notified(Message(m))] else []
  }

  class Peer {
    /** The socket recorded by its `onopen` handler. */
    var ws: Option<Socket>
    var connection: Option<Conn>
    /** The registry, in registration order. */
    var streams: seq<Stream>
    var iceServers: Option<seq<string>>
    /** The optional callbacks the host installed. */
    const hooks: set<Hook>

    /** Sockets made by `register`, each with the initial message its `onopen` handler holds. */
    var sockets: map<Socket, Option<Msg>>
    /** Connections made by `createConnection`: their handlers can still be invoked. */
    var connections: set<Conn>
    /** Connections whose handlers `closeConnection` set to null; `ondatachannel`
        and `onconnectionstatechange` are not among them and stay live. */
    var detached: set<Conn>
    /** Accepted offers whose answer is still being computed. */
    var answering: multiset<Conn>
    /** The processors behind each inbound channel's `onmessage`. */
    var inbound: map<Stream, seq<Proc>>
    /** Source of fresh handles for sockets, connections and channels. */
    var nextId: nat
    var log: seq<Effect>

    ghost predicate Valid()
      reads this
    {
      && (ws.Some? ==> ws.value in sockets)
      && (connection.Some? ==> connection.value in connections)
      && detached <= connections
      && (forall c :: c in answering ==> c in connections)
      && (forall s :: s in sockets ==> s.id < nextId)
      && (forall c :: c in connections ==> c.id < nextId)
    }

    /** The state `closeConnection` leaves: no connection and, if there was one,
        an empty registry and that connection's handlers detached. */
    twostate predicate TornDown()
      reads this
    {
      && connection == None
      && streams == (if old(connection).Some? then [] else old(streams))
      && detached == (if old(connection).Some? then old(detached) + {old(connection).value} else old(detached))
    }

    constructor (hooks: set<Hook>)
      ensures Valid()
      ensures ws == None && connection == None && streams == [] && iceServers == None
      ensures this.hooks == hooks && sockets == map[] && connections == {} && detached == {}
      ensures answering == multiset{} && inbound == map[] && nextId == 0 && log == []
    {
      this.hooks := hooks;
      ws, connection, streams, iceServers := None, None, [], None;
      sockets, connections, detached := map[], {}, {};
      answering, inbound, nextId, log := multiset{}, map[], 0, [];
    }

    /** `register`: refuses when a socket is recorded (the code reads the `ws`
        binding before its declaration), tears down any connection, then
        makes a socket whose `onopen` will send `initial`. The socket is not
        recorded until it opens. */
    method Register(url: string, protocol: string, initial: Option<Msg>) returns (r: Outcome)
      requires Valid()
      modifies this`connection, this`streams, this`detached, this`sockets, this`nextId, this`log
      ensures Valid()
      ensures old(ws).Some? ==> r == Fail(SocketInTdz) && unchanged(this)
      ensures old(ws).None? ==>
        var s := Socket(old(nextId));
        && r == Pass && s !in old(sockets)
        && sockets == old(sockets)[s := initial] && nextId == old(nextId) + 1
        && TornDown()
        && log == old(log) + TeardownIfAny(old(connection), old(streams)) + [SocketCreated(s, url, protocol)]
    {
      if ws.Some? {
        return Fail(SocketInTdz);
      }
      if connection.Some? {
        CloseConnection();
      }
      var s := Socket(nextId);
      nextId := nextId + 1;
      sockets := sockets[s := initial];
      log := log + [SocketCreated(s, url, protocol)];
      r := Pass;
    }

    /** `sendMessage`: a hard failure without a socket, otherwise exactly one
        message on the recorded socket. */
    method SendMessage(m: Msg) returns (r: Outcome)
      requires Valid()
      modifies this`log
      ensures Valid()
      ensures r == (if ws.Some? then Pass else Fail(NoSocket))
      ensures log == old(log) + (if ws.Some? then [Sent(ws.value, m)] else [])
    {
      if ws.None? {
        return Fail(NoSocket);
      }
      log := log + [Sent(ws.value, m)];
      r := Pass;
    }

    /** The first steps of a socket's `onopen`: record the socket, then send
        the initial message `register` gave it. */
    method AdoptSocket(s: Socket)
      requires Valid() && s in sockets
      modifies this`ws, this`log
      ensures Valid() && ws == Some(s)
      ensures log == old(log) + (if sockets[s].Some? then [Sent(s, sockets[s].value)] else [])
    {
      ws := Some(s);
      if sockets[s].Some? {
        var sent := SendMessage(sockets[s].value);
      }
    }

    /** A socket's `onopen`: record it, send its initial message, then call `onWsOpen`. */
    method SocketOpened(s: Socket)
      requires Valid() && s in sockets
      modifies this`ws, this`log
      ensures Valid() && ws == Some(s)
      ensures log == old(log)
        + (if sockets[s].Some? then [Sent(s, sockets[s].value)] else [])
        + (if OnWsOpen in hooks then [Notified(WsOpened(s))] else [])
    {
      AdoptSocket(s);
      if OnWsOpen in hooks {
        log := log + [Notified(WsOpened(s))];
      }
    }

    /** The last steps of a socket's `onclose`: forget the recorded socket
        (whichever it is), then tear the connection down. */
    method ReleaseSocket()
      requires Valid()
      modifies this`ws, this`connection, this`streams, this`detached, this`log
      ensures Valid() && ws == None && TornDown()
      ensures log == old(log) + TeardownIfAny(old(connection), old(streams))
    {
      if ws.Some? {
        ws := None;
      }
      CloseConnection();
    }

    /** A socket's `onclose`: call `onWsClose`, forget the socket, tear down. */
    method SocketClosed(s: Socket)
      requires Valid() && s in sockets
      modifies this`ws, this`connection, this`streams, this`detached, this`log
      ensures Valid() && ws == None && TornDown()
      ensures log == old(log)
        + (if OnWsClose in hooks then [Notified(WsClosed(s))] else [])
        + TeardownIfAny(old(connection), old(streams))
    {
      if OnWsClose in hooks {
        log := log + [Notified(WsClosed(s))];
      }
      ReleaseSocket();
    }

    /** A socket's `onmessage`. `None` is a payload that does not parse; the
        code's fallback for it reads an undefined variable and throws. */
    method SocketMessage(s: Socket, payload: Option<Msg>) returns (r: Outcome)
      requires Valid() && s in sockets
      modifies this`iceServers, this`connection, this`streams, this`detached, this`answering, this`log
      ensures Valid()
      ensures payload.None? ==> r == Fail(MalformedPayload) && unchanged(this)
      ensures payload.Some? ==> ProcessedFrom(old(View()), payload.value, r)
    {
      if payload.None? {
        return Fail(MalformedPayload);
      }
      r := ProcessMessage(payload.value);
    }

    /** `createConnection`: a new connection only when none is held. */
    method CreateConnection()
      requires Valid()
      modifies this`connection, this`connections, this`nextId, this`log
      ensures Valid() && connection.Some?
      ensures old(connection).Some? ==>
        connection == old(connection) && connections == old(connections) && nextId == old(nextId) && log == old(log)
      ensures old(connection).None? ==>
        var c := Conn(old(nextId));
        && c !in old(connections)
        && connection == Some(c) && connections == old(connections) + {c} && nextId == old(nextId) + 1
        && log == old(log) + [ConnectionCreated(c, iceServers)]
    {
      if connection.None? {
        var c := Conn(nextId);
        nextId := nextId + 1;
        log := log + [ConnectionCreated(c, iceServers)];
        connections := connections + {c};
        connection := Some(c);
      }
    }

    /** `closeConnection`: with a connection, detach its handlers, pop every
        stream off the registry calling `stop` and `close` where they exist,
        close the connection and forget it; without one, nothing. */
    method CloseConnection()
      requires Valid()
      modifies this`connection, this`streams, this`detached, this`log
      ensures Valid() && TornDown()
      ensures log == old(log) + TeardownIfAny(old(connection), old(streams))
    {
      if connection.Some? {
        var c := connection.value;
        detached := detached + {c};
        log := log + [HandlersDetached(c)];
        ghost var start, all := log, streams;
        while |streams| > 0
          invariant connection == Some(c) && detached == old(detached) + {c}
          invariant log + DrainEffects(streams) == start + DrainEffects(all)
          decreases |streams|
        {
          var st := streams[|streams| - 1];
          streams := streams[..|streams| - 1];
          if st.canStop {
            log := log + [Stopped(st)];
          }
          if st.canClose {
            log := log + [Closed(st)];
          }
        }
        assert streams == [] && log == start + DrainEffects(all);
        log := log + [ConnectionClosed(c)];
        connection := None;
        assert log == old(log) + Teardown(c, all);
      }
    }

    /** `bye`: send `{bye: true}`, then tear down; without a socket it throws first. */
    method Bye() returns (r: Outcome)
      requires Valid()
      modifies this`connection, this`streams, this`detached, this`log
      ensures Valid()
      ensures ws.None? ==> r == Fail(NoSocket) && unchanged(this)
      ensures ws.Some? ==>
        r == Pass && TornDown() && log == old(log) + [Sent(ws.value, ByeMsg)] + TeardownIfAny(old(connection), old(streams))
    {
      r := SendMessage(ByeMsg);
      assert r.Fail? ==> log == old(log);
      if r.Pass? {
        CloseConnection();
      }
    }

    /** `createDataChannel`: a fresh channel on the current connection,
        appended to the registry; without a connection it throws. */
    method CreateDataChannel(name: string, ordered: bool) returns (r: Result<Stream>)
      requires Valid()
      modifies this`streams, this`nextId, this`log
      ensures Valid()
      ensures connection.None? ==> r == Err(NoConnection) && unchanged(this)
      ensures connection.Some? ==>
        && r == Ok(Stream(old(nextId), name, ordered, false, true))
        && streams == old(streams) + [r.value] && nextId == old(nextId) + 1
        && log == old(log) + [ChannelCreated(connection.value, r.value)]
    {
      if connection.None? {
        return Err(NoConnection);
      }
      var ch := Stream(nextId, name, ordered, false, true);
      nextId := nextId + 1;
      log := log + [ChannelCreated(connection.value, ch)];
      streams := streams + [ch];
      r := Ok(ch);
    }

    ghost function View(): PeerView
      reads this
    {
      PeerView(ws, connection, connections, streams, detached, answering, iceServers, nextId, log)
    }

    /** What `processMessage(m)` does to a peer that was in state `v`, in the
        order it does it: adopt `iceServers`; hand a candidate and a
        description to the connection (throwing when there is none); on a
        truthy `hangup` call `onHangup` and tear down; finally pass `m` to
        `onmessage`. The socket, the set of connections and the handle
        counter are left alone. */
    ghost predicate ProcessedFrom(v: PeerView, m: Msg, r: Outcome)
      reads this
    {
      && ws == v.ws && connections == v.connections && nextId == v.nextId
      && iceServers == (if m.iceServers.Some? then m.iceServers else v.iceServers)
      && (r.Fail? <==> v.connection.None? && NeedsConnection(m))
      && (r.Fail? ==>
            && r.error == NoConnection && connection == v.connection && streams == v.streams
            && detached == v.detached && answering == v.answering && log == v.log)
      && (r.Pass? ==>
            && answering == (if CarriesOffer(m) then v.answering + multiset{v.connection.value} else v.answering)
            && connection == (if CarriesHangup(m) then None else v.connection)
            && streams == (if CarriesHangup(m) && v.connection.Some? then [] else v.streams)
            && detached == (if CarriesHangup(m) && v.connection.Some? then v.detached + {v.connection.value} else v.detached)
            && log == v.log + NegotiationIfAny(v.connection, m)
                 + HangupEffects(hooks, v.connection, v.streams, m) + MessageEffects(hooks, m))
    }

    /** `processMessage`. */
    method ProcessMessage(m: Msg) returns (r: Outcome)
      requires Valid()
      modifies this`iceServers, this`connection, this`streams, this`detached, this`answering, this`log
      ensures Valid() && ProcessedFrom(old(View()), m, r)
    {
      if m.iceServers.Some? {
        iceServers := m.iceServers;
      }
      r := Negotiate(m);
      if r.Pass? {
        Conclude(m);
      }
    }

    /** The `ice` and `sdp` branches of `processMessage`. */
    method Negotiate(m: Msg) returns (r: Outcome)
      requires Valid()
      modifies this`answering, this`log
      ensures Valid()
      ensures r == (if connection.None? && NeedsConnection(m) then Fail(NoConnection) else Pass)
      ensures r.Fail? ==> answering == old(answering) && log == old(log)
      ensures r.Pass? ==>
        && answering == (if CarriesOffer(m) then old(answering) + multiset{connection.value} else old(answering))
        && log == old(log) + NegotiationIfAny(connection, m)
    {
      if CarriesCandidate(m) {
        if connection.None? {
          return Fail(NoConnection);
        }
        log := log + [CandidateAdded(connection.value, m.ice.value)];
      }
      if m.sdp.Some? {
        if connection.None? {
          return Fail(NoConnection);
        }
        var c := connection.value;
        log := log + [RemoteDescriptionSet(c, m.sdp.value)];
        if m.sdp.value.kind == Offer {
          answering := answering + multiset{c};
        }
      }
      r := Pass;
    }

    /** The `hangup` branch of `processMessage`. */
    method HangupStep(m: Msg)
      requires Valid()
      modifies this`connection, this`streams, this`detached, this`log
      ensures Valid()
      ensures log == old(log) + HangupEffects(hooks, old(connection), old(streams), m)
      ensures CarriesHangup(m) ==> TornDown()
      ensures !CarriesHangup(m) ==> unchanged(this)
    {
      if CarriesHangup(m) {
        if OnHangup in hooks {
          log := log + [Notified(HungUp(m.hangup.value))];
        }
        if connection.Some? {
          CloseConnection();
        }
      }
    }

    /** The steps of `processMessage` after negotiation: the `hangup` branch, then `onmessage`. */
    method Conclude(m: Msg)
      requires Valid()
      modifies this`connection, this`streams, this`detached, this`log
      ensures Valid()
      ensures connection == (if CarriesHangup(m) then None else old(connection))
      ensures streams == (if CarriesHangup(m) && old(connection).Some? then [] else old(streams))
      ensures detached == (if CarriesHangup(m) && old(connection).Some? then old(detached) + {old(connection).value} else old(detached))
      ensures log == old(log) + HangupEffects(hooks, old(connection), old(streams), m) + MessageEffects(hooks, m)
    {
      HangupStep(m);
      if OnMessage in hooks {
        log := log + [Notified(Message(m))];
      }
    }

    /** The answer to an accepted offer is ready: it becomes the local
        description and is sent as `{sdp: answer}`. */
    method AnswerReady(c: Conn, answer: Description) returns (r: Outcome)
      requires Valid() && c in answering
      modifies this`answering, this`log
      ensures Valid() && answering == old(answering) - multiset{c}
      ensures r == (if ws.Some? then Pass else Fail(NoSocket))
      ensures log == old(log) + [LocalDescriptionSet(c, answer)] + (if ws.Some? then [Sent(ws.value, SdpMsg(answer))] else [])
    {
      answering := answering - multiset{c};
      log := log + [LocalDescriptionSet(c, answer)];
      r := SendMessage(SdpMsg(answer));
    }

    /** `ondatachannel` (never detached): register the channel, ask the host
        for processors, and route the channel's payloads to them. */
    method DataChannelArrived(c: Conn, ch: Stream, returned: HookReturn)
      requires Valid() && c in connections
      modifies this`streams, this`inbound, this`log
      ensures Valid()
      ensures streams == old(streams) + [ch]
      ensures inbound == old(inbound)[ch := ChannelProcessors(hooks, returned)]
      ensures log == old(log) + (if OnDataChannel in hooks then [Notified(DataChannelOpened(ch))] else [])
    {
      streams := streams + [ch];
      if OnDataChannel in hooks {
        log := log + [Notified(DataChannelOpened(ch))];
      }
      inbound := inbound[ch := ChannelProcessors(hooks, returned)];
    }

    /** An inbound channel's `onmessage`: each processor in turn receives the payload. */
    method ChannelMessage(ch: Stream, payload: string)
      requires Valid() && ch in inbound
      modifies this`log
      ensures Valid()
      ensures log == old(log) + FanOut(inbound[ch], payload)
    {
      var procs := inbound[ch];
      for i := 0 to |procs|
        invariant log == old(log) + FanOut(procs[..i], payload)
      {
        assert procs[..i + 1] == procs[..i] + [procs[i]];
        FanOutSnoc(procs[..i], procs[i], payload);
        log := log + [Delivered(procs[i], payload)];
      }
      assert procs[..|procs|] == procs;
    }

    /** `onicecandidate`: each local candidate goes out as its own `{ice: …}`. */
    method IceCandidateFound(c: Conn, cand: Candidate) returns (r: Outcome)
      requires Valid() && c in connections
      modifies this`log
      ensures Valid()
      ensures c in detached ==> r == Pass && log == old(log)
      ensures c !in detached ==>
        && r == (if ws.Some? then Pass else Fail(NoSocket))
        && log == old(log) + (if ws.Some? then [Sent(ws.value, IceMsg(cand))] else [])
    {
      if c in detached {
        return Pass;
      }
      r := SendMessage(IceMsg(cand));
    }

    /** `oniceconnectionstatechange`: reaching `connected` calls `onconnected('iceConnected')`. */
    method IceStateChanged(c: Conn, state: IceState)
      requires Valid() && c in connections
      modifies this`log
      ensures Valid()
      ensures log == old(log)
        + (if c !in detached && state == IceConnected && OnConnected in hooks then [Notified(Connected(Some("iceConnected")))] else [])
    {
      if c !in detached && state == IceConnected && OnConnected in hooks {
        log := log + [Notified(Connected(Some("iceConnected")))];
      }
    }

    /** `onsignalingstatechange`: `closed` drops the connection reference,
        without draining the registry. */
    method SignalingStateChanged(c: Conn, state: SignalingState)
      requires Valid() && c in connections
      modifies this`connection
      ensures Valid()
      ensures connection == (if c !in detached && state == SignalingClosed then None else old(connection))
    {
      if c !in detached && state == SignalingClosed && connection.Some? {
        connection := None;
      }
    }

    /** `onconnectionstatechange` (never detached): `closed`, `failed` or
        `disconnected` drops the current connection reference, without
        draining the registry. */
    method ConnectionStateChanged(c: Conn, state: ConnectionState)
      requires Valid() && c in connections
      modifies this`connection
      ensures Valid()
      ensures connection == (if DropsConnection(state) then None else old(connection))
    {
      if connection.Some? && DropsConnection(state) {
        connection := None;
      }
    }

    /** `ontrack`: register the remote stream, then call `onstream`. */
    method TrackArrived(c: Conn, st: Stream)
      requires Valid() && c in connections
      modifies this`streams, this`log
      ensures Valid()
      ensures c in detached ==> streams == old(streams) && log == old(log)
      ensures c !in detached ==>
        streams == old(streams) + [st] && log == old(log) + (if OnStream in hooks then [Notified(StreamAdded(st))] else [])
    {
      if c !in detached {
        streams := streams + [st];
        if OnStream in hooks {
          log := log + [Notified(StreamAdded(st))];
        }
      }
    }

    /** `onnegotiationneeded`, once the offer is made: it becomes the local
        description and is sent as `{sdp: offer}`. */
    method NegotiationNeeded(c: Conn, offer: Description) returns (r: Outcome)
      requires Valid() && c in connections
      modifies this`log
      ensures Valid()
      ensures c in detached ==> r == Pass && log == old(log)
      ensures c !in detached ==>
        && r == (if ws.Some? then Pass else Fail(NoSocket))
        && log == old(log) + [LocalDescriptionSet(c, offer)] + (if ws.Some? then [Sent(ws.value, SdpMsg(offer))] else [])
    {
      if c in detached {
        return Pass;
      }
      log := log + [LocalDescriptionSet(c, offer)];
      r := SendMessage(SdpMsg(offer));
    }
  }

  /** The processors that received `payload`, in the order they received it. */
  function DeliveredTo(log: seq<Effect>, payload: string): seq<Proc> {
    if log == [] then []
    else (if log[0].Delivered? && log[0].payload == payload then [log[0].p] else []) + DeliveredTo(log[1..], payload)
  }

  lemma {:induction false} DeliveredToConcat(a: seq<Effect>, b: seq<Effect>, payload: string)
    ensures DeliveredTo(a + b, payload) == DeliveredTo(a, payload) + DeliveredTo(b, payload)
  {
    if a == [] {
      assert a + b == b;
    } else {
      assert (a + b)[0] == a[0] && (a + b)[1..] == a[1..] + b;
      DeliveredToConcat(a[1..], b, payload);
    }
  }

  /** A fan-out of `payload` reaches each processor of the list once, in list
      order, and delivers no other payload. */
  lemma {:induction false} FanOutDelivers(procs: seq<Proc>, payload: string, y: string)
    ensures DeliveredTo(FanOut(procs, payload), y) == if y == payload then procs else []
  {
    if procs != [] {
      var r := FanOut(procs, payload);
      assert r[1..] == FanOut(procs[1..], payload);
      FanOutDelivers(procs[1..], payload, y);
      if y == payload {
        assert [procs[0]] + procs[1..] == procs;
      }
    }
  }

  lemma FanOutSnoc(procs: seq<Proc>, p: Proc, payload: string)
    ensures FanOut(procs + [p], payload) == FanOut(procs, payload) + [Delivered(p, payload)]
  {
  }
}
