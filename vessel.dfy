/** The vessel side of a session: a peer with a ship's identity, a status
    report sent on a timer, a conning channel fed from the sentence list,
    and hang-up. The vessel is built around a `Peer` it owns; where the
    vessel overrides `processMessage`, or supplies the `onWsOpen`/`onWsClose`
    callbacks the peer's socket handlers call, its methods run the peer's
    steps around its own. Timer callbacks are event methods; setting and clearing a timer,
    sending on a channel and the operator alert are effects in the peer's log. */
module VesselCore {
  import opened Wire
  import opened Registry
  import opened Conning
  import opened Targets
  import opened PeerCore

  const Greeting := "moimoimoi!"
  const ConningLabel := "conning:nmea"
  const Protocol := "vrgp-1.0"
  const DefaultGuidance := "recommendation"
  const LostMoc := "Lost connection to MOC!"
  /** Delays, in milliseconds. */
  const FirstStatusDelay: nat := 100
  const StatusPeriod: nat := 5000
  const HangupGrace: nat := 500
  const NmeaPeriod: nat := 1000

  /** `this.mmsi` is truthy: set and not the empty string. */
  predicate HasIdentity(mmsi: Option<string>) {
    mmsi.Some? && mmsi.value != ""
  }

  /** `requestObj.conning` is truthy. */
  predicate RequestsConning(req: Request) {
    req.conning.Some? && Truthy(req.conning.value)
  }

  /** What `shift()` returns: the first sentence, or nothing for an empty list. */
  function Head(s: seq<string>): Option<string> {
    if s == [] then None else Some(s[0])
  }

  /** The list `shift()` leaves behind. */
  function Tail(s: seq<string>): seq<string> {
    if s == [] then [] else s[1..]
  }

  /** The status made up when none was supplied: `{nmea: <first sentence>}`. */
  function DefaultStatus(sentences: seq<string>): Msg {
    StatusMsg(Head(sentences))
  }

  /** A request's `iceServers`, when present, replace the peer's. */
  function AdoptRequestServers(v: PeerView, req: Request): PeerView {
    v.(iceServers := if req.iceServers.Some? then req.iceServers else v.iceServers)
  }

  /** The channel `shareConning` opens on a peer in state `v`: unordered,
      labelled `conning:nmea`, with the next free handle once a connection
      exists. */
  function ConningChannel(v: PeerView): Stream {
    Stream(v.nextId + (if v.connection.None? then 1 else 0), ConningLabel, false, false, true)
  }

  /** What `shareConning` does to a peer in state `v`: a connection is made
      only when none is held, and exactly one channel is appended to the
      registry; nothing else changes. */
  function AfterShare(v: PeerView): (w: PeerView)
    ensures w.connection.Some?
    ensures v.connection.Some? ==> w.connection == v.connection && w.connections == v.connections
    ensures v.connection.None? ==>
      w.connection == Some(Conn(v.nextId)) && w.connections == v.connections + {Conn(v.nextId)}
    ensures w.streams == v.streams + [ConningChannel(v)]
    ensures ConningChannel(v).name == ConningLabel && !ConningChannel(v).ordered
    ensures v.nextId <= ConningChannel(v).id < w.nextId
    ensures w.ws == v.ws && w.detached == v.detached && w.answering == v.answering && w.iceServers == v.iceServers
    ensures w.log == v.log
      + (if v.connection.None? then [ConnectionCreated(Conn(v.nextId), v.iceServers)] else [])
      + [ChannelCreated(w.connection.value, ConningChannel(v))]
  {
    var c := if v.connection.Some? then v.connection.value else Conn(v.nextId);
    var made := if v.connection.Some? then [] else [ConnectionCreated(c, v.iceServers)];
    var ch := ConningChannel(v);
    v.(connection := Some(c),
       connections := if v.connection.Some? then v.connections else v.connections + {c},
       streams := v.streams + [ch],
       nextId := ch.id + 1,
       log := v.log + made + [ChannelCreated(c, ch)])
  }

  class VesselInterface {
    const peer: Peer
    /** The identity behind the `mmsi` accessor. */
    var mmsi: Option<string>
    var status: Option<Msg>
    var statusTimer: Option<Timer>
    var conning: Option<Stream>
    /** Channels whose `onopen` handler `shareConning` installed. */
    var conningChannels: set<Stream>
    /** The drain timers still to fire, each with what it will send. */
    var drains: map<Timer, Drain>
    /** The list of sentences the status and the conning drain are taken from. */
    var sentences: seq<string>
    /** Source of fresh timer handles. */
    var nextTimer: nat

    ghost predicate Valid()
      reads this, peer
    {
      && peer.Valid()
      && (statusTimer.Some? ==> status.Some? && statusTimer.value.id < nextTimer && statusTimer.value !in drains)
      && (forall t :: t in drains ==> t.id < nextTimer)
    }

    /** `new VesselInterface(properties)`: the host's callbacks, an optional identity, the sentence list. */
    constructor (hooks: set<Hook>, mmsi: Option<string>, sentences: seq<string>)
      ensures Valid() && fresh(peer)
      ensures peer.hooks == hooks && peer.View() == PeerView(None, None, {}, [], {}, multiset{}, None, 0, [])
      ensures peer.sockets == map[] && peer.inbound == map[]
      ensures this.mmsi == mmsi && this.sentences == sentences
      ensures status == None && statusTimer == None && conning == None
      ensures conningChannels == {} && drains == map[] && nextTimer == 0
    {
      peer := new Peer(hooks);
      this.mmsi := mmsi;
      this.sentences := sentences;
      status, statusTimer, conning := None, None, None;
      conningChannels, drains, nextTimer := {}, map[], 0;
    }

    /** The `mmsi` setter: tear down any connection, then store the identity. */
    method SetMmsi(newMmsi: Option<string>)
      requires Valid()
      modifies this`mmsi, peer`connection, peer`streams, peer`detached, peer`log
      ensures Valid() && mmsi == newMmsi && peer.TornDown()
      ensures peer.log == old(peer.log) + TeardownIfAny(old(peer.connection), old(peer.streams))
    {
      if peer.connection.Some? {
        peer.CloseConnection();
      }
      mmsi := newMmsi;
    }

    /** `contactMOC`: needs an identity and a status; registers with the
        resolved target, offering the handshake as the socket's first message. */
    method ContactMoc(hostOrUrl: string, capabilities: string, guidance: Option<string>) returns (r: Outcome)
      requires Valid()
      modifies peer`connection, peer`streams, peer`detached, peer`sockets, peer`nextId, peer`log
      ensures Valid()
      ensures !HasIdentity(mmsi) ==> r == Fail(MissingMmsi) && unchanged(peer)
      ensures HasIdentity(mmsi) && status.None? ==> r == Fail(MissingStatus) && unchanged(peer)
      ensures HasIdentity(mmsi) && status.Some? && old(peer.ws).Some? ==> r == Fail(SocketInTdz) && unchanged(peer)
      ensures HasIdentity(mmsi) && status.Some? && old(peer.ws).None? ==>
        var s := Socket(old(peer.nextId));
        var hello := Handshake(capabilities, guidance.GetOr(DefaultGuidance), status.value.nmea);
        && r == Pass && s !in old(peer.sockets)
        && peer.sockets == old(peer.sockets)[s := Some(hello)] && peer.nextId == old(peer.nextId) + 1
        && peer.TornDown()
        && peer.log == old(peer.log) + TeardownIfAny(old(peer.connection), old(peer.streams))
             + [SocketCreated(s, ResolveTarget(hostOrUrl, mmsi.value), Protocol)]
    {
      if !HasIdentity(mmsi) {
        return Fail(MissingMmsi);
      }
      var url := ResolveTarget(hostOrUrl, mmsi.value);
      if status.None? {
        return Fail(MissingStatus);
      }
      var hello := Handshake(capabilities, guidance.GetOr(DefaultGuidance), status.value.nmea);
      r := peer.Register(url, Protocol, Some(hello));
    }

    /** What the vessel's `processMessage(m)` does, from the state before it
        to the state after: a request first adopts its `iceServers` and is
        handled; when handling throws the peer never sees the message,
        otherwise the peer's `processMessage` follows. */
    twostate predicate Handled(m: Msg, r: Outcome)
      reads this, peer
    {
      && (m.request.None? ==>
            && conning == old(conning) && conningChannels == old(conningChannels)
            && peer.ProcessedFrom(old(peer.View()), m, r))
      && (m.request.Some? && !RequestsConning(m.request.value) ==>
            && r == Fail(InvalidRequest) && conning == old(conning) && conningChannels == old(conningChannels)
            && peer.View() == AdoptRequestServers(old(peer.View()), m.request.value))
      && (m.request.Some? && RequestsConning(m.request.value) ==>
            var v := AdoptRequestServers(old(peer.View()), m.request.value);
            && conning == Some(ConningChannel(v)) && conningChannels == old(conningChannels) + {ConningChannel(v)}
            && peer.ProcessedFrom(AfterShare(v), m, r))
    }

    /** Vessel `processMessage`. */
    method ProcessMessage(m: Msg) returns (r: Outcome)
      requires Valid()
      modifies this`conning, this`conningChannels
      modifies peer`iceServers, peer`connection, peer`connections, peer`streams, peer`detached
      modifies peer`answering, peer`nextId, peer`log
      ensures Valid() && Handled(m, r)
    {
      if m.request.Some? {
        var req := m.request.value;
        if req.iceServers.Some? {
          peer.iceServers := req.iceServers;
        }
        r := HandleRequest(req);
        if r.Fail? {
          return;
        }
      }
      r := peer.ProcessMessage(m);
    }

    /** `handleRequest`: a request for conning is shared; any other request throws. */
    method HandleRequest(req: Request) returns (r: Outcome)
      requires Valid()
      modifies this`conning, this`conningChannels
      modifies peer`connection, peer`connections, peer`streams, peer`nextId, peer`log
      ensures Valid()
      ensures !RequestsConning(req) ==>
        r == Fail(InvalidRequest) && unchanged(this) && unchanged(peer)
      ensures RequestsConning(req) ==>
        && r == Pass && conning == Some(ConningChannel(old(peer.View())))
        && conningChannels == old(conningChannels) + {ConningChannel(old(peer.View()))}
        && peer.View() == AfterShare(old(peer.View()))
    {
      if !RequestsConning(req) {
        return Fail(InvalidRequest);
      }
      ShareConning();
      r := Pass;
    }

    /** `shareConning`: make a connection if none is held, open the unordered
        `conning:nmea` channel on it and keep it as `conning`. */
    method ShareConning()
      requires Valid()
      modifies this`conning, this`conningChannels
      modifies peer`connection, peer`connections, peer`streams, peer`nextId, peer`log
      ensures Valid()
      ensures conning == Some(ConningChannel(old(peer.View())))
      ensures conningChannels == old(conningChannels) + {ConningChannel(old(peer.View()))}
      ensures peer.View() == AfterShare(old(peer.View()))
    {
      ghost var v := peer.View();
      if peer.connection.None? {
        peer.CreateConnection();
      }
      var made := peer.CreateDataChannel(ConningLabel, false);
      assert made == Ok(ConningChannel(v));
      conning := Some(made.value);
      conningChannels := conningChannels + {made.value};
    }

    /** `sendNMEAs(list)`: for a non-empty list, a timer that will send its
        first sentence and then carry on with the rest. */
    method SendNmeas(list: seq<string>)
      requires Valid()
      modifies this`drains, this`nextTimer, peer`log
      ensures Valid()
      ensures Start(list).None? ==> drains == old(drains) && nextTimer == old(nextTimer) && peer.log == old(peer.log)
      ensures Start(list).Some? ==>
        var u := Timer(old(nextTimer));
        && u !in old(drains) && drains == old(drains)[u := Start(list).value] && nextTimer == old(nextTimer) + 1
        && peer.log == old(peer.log) + [TimerSet(u, NmeaPeriod)]
    {
      if |list| < 1 {
        return;
      }
      var u := Timer(nextTimer);
      nextTimer := nextTimer + 1;
      drains := drains[u := Drain(list[0], list[1..])];
      peer.log := peer.log + [TimerSet(u, NmeaPeriod)];
    }

    /** The conning channel's `onopen`: greet on the current conning channel
        (throwing when there is none), then start draining a copy of the
        sentence list. */
    method ConningOpened(ch: Stream) returns (r: Outcome)
      requires Valid() && ch in conningChannels
      modifies this`drains, this`nextTimer, peer`log
      ensures Valid() && sentences == old(sentences)
      ensures conning.None? ==> r == Fail(NoConning) && unchanged(this) && peer.log == old(peer.log)
      ensures conning.Some? ==>
        var u := Timer(old(nextTimer));
        && r == Pass
        && (Start(sentences).None? ==>
              drains == old(drains) && nextTimer == old(nextTimer)
              && peer.log == old(peer.log) + [ChannelSent(conning.value, Greeting)])
        && (Start(sentences).Some? ==>
              && u !in old(drains) && drains == old(drains)[u := Start(sentences).value]
              && nextTimer == old(nextTimer) + 1
              && peer.log == old(peer.log) + [ChannelSent(conning.value, Greeting), TimerSet(u, NmeaPeriod)])
    {
      if conning.None? {
        return Fail(NoConning);
      }
      peer.log := peer.log + [ChannelSent(conning.value, Greeting)];
      SendNmeas(sentences);
      r := Pass;
    }

    /** A drain timer fires: its sentence goes out on the conning channel if
        there is one, and the rest of its list is scheduled. */
    method DrainTick(t: Timer)
      requires Valid() && t in drains
      modifies this`drains, this`nextTimer, peer`log
      ensures Valid()
      ensures
        var d, u := old(drains)[t], Timer(old(nextTimer));
        var sent := if conning.Some? then [ChannelSent(conning.value, d.next)] else [];
        && (Next(d).None? ==>
              drains == old(drains) - {t} && nextTimer == old(nextTimer) && peer.log == old(peer.log) + sent)
        && (Next(d).Some? ==>
              && u !in old(drains) && drains == (old(drains) - {t})[u := Next(d).value]
              && nextTimer == old(nextTimer) + 1
              && peer.log == old(peer.log) + sent + [TimerSet(u, NmeaPeriod)])
    {
      var d := drains[t];
      drains := drains - {t};
      if conning.Some? {
        peer.log := peer.log + [ChannelSent(conning.value, d.next)];
      }
      SendNmeas(d.rest);
    }

    /** `statusReport`: a supplied message becomes the status; with none at
        all the default status takes the first sentence off the list; a timer
        is started only when none is running. */
    method StatusReport(message: Option<Msg>)
      requires Valid()
      modifies this`status, this`sentences, this`statusTimer, this`nextTimer, peer`log
      ensures Valid()
      ensures status ==
        if message.Some? then message else if old(status).Some? then old(status) else Some(DefaultStatus(old(sentences)))
      ensures sentences == if message.None? && old(status).None? then Tail(old(sentences)) else old(sentences)
      ensures old(statusTimer).Some? ==>
        statusTimer == old(statusTimer) && nextTimer == old(nextTimer) && peer.log == old(peer.log)
      ensures old(statusTimer).None? ==>
        var u := Timer(old(nextTimer));
        && statusTimer == Some(u) && nextTimer == old(nextTimer) + 1
        && peer.log == old(peer.log) + [TimerSet(u, FirstStatusDelay)]
    {
      if message.Some? {
        status := message;
      }
      if status.None? {
        status := Some(DefaultStatus(sentences));
        sentences := Tail(sentences);
      }
      if statusTimer.None? {
        var u := Timer(nextTimer);
        nextTimer := nextTimer + 1;
        peer.log := peer.log + [TimerSet(u, FirstStatusDelay)];
        statusTimer := Some(u);
      }
    }

    /** The status timer fires: the current status is sent while a socket is
        recorded, and the timer sets itself again. */
    method StatusTick()
      requires Valid() && statusTimer.Some?
      modifies this`statusTimer, this`nextTimer, peer`log
      ensures Valid()
      ensures
        var u := Timer(old(nextTimer));
        && statusTimer == Some(u) && nextTimer == old(nextTimer) + 1
        && peer.log == old(peer.log)
             + (if peer.ws.Some? then [Sent(peer.ws.value, status.value)] else [])
             + [TimerSet(u, StatusPeriod)]
    {
      if peer.ws.Some? {
        var sent := peer.SendMessage(status.value);
      }
      var u := Timer(nextTimer);
      nextTimer := nextTimer + 1;
      peer.log := peer.log + [TimerSet(u, StatusPeriod)];
      statusTimer := Some(u);
    }

    /** `hangup`: tear down, drop the conning channel and, with a socket,
        send `{hangup: true}`, forget the socket and close it after a grace period. */
    method Hangup()
      requires Valid()
      modifies this`conning, peer`ws, peer`connection, peer`streams, peer`detached, peer`log
      ensures Valid() && conning == None && peer.ws == None && peer.TornDown()
      ensures peer.log == old(peer.log) + TeardownIfAny(old(peer.connection), old(peer.streams))
        + (if old(peer.ws).Some? then [Sent(old(peer.ws).value, HangupMsg), SocketCloseScheduled(old(peer.ws).value, HangupGrace)] else [])
    {
      peer.CloseConnection();
      conning := None;
      if peer.ws.Some? {
        var ws := peer.ws.value;
        var sent := peer.SendMessage(HangupMsg);
        peer.ws := None;
        peer.log := peer.log + [SocketCloseScheduled(ws, HangupGrace)];
      }
    }

    /** `onWsOpen`: start status reporting unless a timer runs, then call `onconnected`. */
    method OnWsOpen()
      requires Valid()
      modifies this`status, this`sentences, this`statusTimer, this`nextTimer, peer`log
      ensures Valid() && statusTimer.Some?
      ensures old(statusTimer).Some? ==>
        && status == old(status) && sentences == old(sentences) && statusTimer == old(statusTimer)
        && nextTimer == old(nextTimer)
        && peer.log == old(peer.log) + (if OnConnected in peer.hooks then [Notified(Connected(None))] else [])
      ensures old(statusTimer).None? ==>
        var u := Timer(old(nextTimer));
        && status == (if old(status).Some? then old(status) else Some(DefaultStatus(old(sentences))))
        && sentences == (if old(status).None? then Tail(old(sentences)) else old(sentences))
        && statusTimer == Some(u) && nextTimer == old(nextTimer) + 1
        && peer.log == old(peer.log) + [TimerSet(u, FirstStatusDelay)]
             + (if OnConnected in peer.hooks then [Notified(Connected(None))] else [])
    {
      if statusTimer.None? {
        StatusReport(None);
      }
      if OnConnected in peer.hooks {
        peer.log := peer.log + [Notified(Connected(None))];
      }
    }

    /** `onWsClose`: stop the status timer, call `disconnected`, and alert the
        operator only when a socket was still recorded, that is when the
        socket was lost rather than hung up. */
    method OnWsClose()
      requires Valid()
      modifies this`statusTimer, peer`ws, peer`log
      ensures Valid() && statusTimer == None && peer.ws == None
      ensures peer.log == old(peer.log)
        + (if old(statusTimer).Some? then [TimerCleared(old(statusTimer).value)] else [])
        + (if OnDisconnected in peer.hooks then [Notified(Disconnected)] else [])
        + (if old(peer.ws).Some? then [Alerted(LostMoc)] else [])
    {
      if statusTimer.Some? {
        peer.log := peer.log + [TimerCleared(statusTimer.value)];
        statusTimer := None;
      }
      if OnDisconnected in peer.hooks {
        peer.log := peer.log + [Notified(Disconnected)];
      }
      if peer.ws.Some? {
        peer.ws := None;
        peer.log := peer.log + [Alerted(LostMoc)];
      }
    }

    /** The socket's `onopen` on a vessel: the peer records the socket and
        sends the handshake, then the vessel's `onWsOpen` runs. */
    method SocketOpened(s: Socket)
      requires Valid() && s in peer.sockets
      modifies this`status, this`sentences, this`statusTimer, this`nextTimer, peer`ws, peer`log
      ensures Valid() && peer.ws == Some(s) && statusTimer.Some?
      ensures old(statusTimer).Some? ==>
        && status == old(status) && sentences == old(sentences) && statusTimer == old(statusTimer)
        && nextTimer == old(nextTimer)
        && peer.log == old(peer.log)
             + (if peer.sockets[s].Some? then [Sent(s, peer.sockets[s].value)] else [])
             + (if OnConnected in peer.hooks then [Notified(Connected(None))] else [])
      ensures old(statusTimer).None? ==>
        var u := Timer(old(nextTimer));
        && status == (if old(status).Some? then old(status) else Some(DefaultStatus(old(sentences))))
        && sentences == (if old(status).None? then Tail(old(sentences)) else old(sentences))
        && statusTimer == Some(u) && nextTimer == old(nextTimer) + 1
        && peer.log == old(peer.log)
             + (if peer.sockets[s].Some? then [Sent(s, peer.sockets[s].value)] else [])
             + [TimerSet(u, FirstStatusDelay)]
             + (if OnConnected in peer.hooks then [Notified(Connected(None))] else [])
    {
      peer.AdoptSocket(s);
      OnWsOpen();
    }

    /** The socket's `onclose` on a vessel: the vessel's `onWsClose` runs,
        then the peer forgets the socket and tears down. */
    method SocketClosed(s: Socket)
      requires Valid() && s in peer.sockets
      modifies this`statusTimer, peer`ws, peer`connection, peer`streams, peer`detached, peer`log
      ensures Valid() && statusTimer == None && peer.ws == None && peer.TornDown()
      ensures peer.log == old(peer.log)
        + (if old(statusTimer).Some? then [TimerCleared(old(statusTimer).value)] else [])
        + (if OnDisconnected in peer.hooks then [Notified(Disconnected)] else [])
        + (if old(peer.ws).Some? then [Alerted(LostMoc)] else [])
        + TeardownIfAny(old(peer.connection), old(peer.streams))
    {
      OnWsClose();
      peer.ReleaseSocket();
    }

    /** The socket's `onmessage` on a vessel: a payload that does not parse
        throws; a parsed one goes to the vessel's `processMessage`. */
    method SocketMessage(s: Socket, payload: Option<Msg>) returns (r: Outcome)
      requires Valid() && s in peer.sockets
      modifies this`conning, this`conningChannels
      modifies peer`iceServers, peer`connection, peer`connections, peer`streams, peer`detached
      modifies peer`answering, peer`nextId, peer`log
      ensures Valid()
      ensures payload.None? ==> r == Fail(MalformedPayload) && unchanged(this) && unchanged(peer)
      ensures payload.Some? ==> Handled(payload.value, r)
    {
      if payload.None? {
        return Fail(MalformedPayload);
      }
      r := ProcessMessage(payload.value);
    }
  }
}
