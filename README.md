# Vessel-side peer: session lifecycle model

This project models the session bookkeeping of the vessel side of a remote
pilotage link, as implemented by the classes `Peer` (`peer.js`) and
`VesselInterface` (`vessel.js`).

- The **peer** owns three things: a signaling WebSocket; at most one
  RTCPeerConnection; and the registry `streams` of data channels and media
  streams that connection carries. Its operations are sending, creating and
  tearing down the connection, and dispatching inbound control messages.
- The **vessel** adds:
  - an MMSI identity;
  - contacting the monitoring centre (MOC);
  - a status report repeated on a timer;
  - the `conning:nmea` channel, which is fed from a list of NMEA sentences;
  - hang-up;
  - the operator alert raised when the signaling socket is lost.

The browser objects (WebSocket, RTCPeerConnection, data channels, timers)
are opaque handles (`Wire.Socket`, `Wire.Conn`, `Wire.Stream`,
`Wire.Timer`), drawn from counters. Every call into those objects or into
the host application's callbacks is recorded, in order, as a `Wire.Effect`
in the peer's `log`. Examples are a message sent, a stream stopped, a timer
set or an alert shown. Each browser callback is an event method, and
callbacks from a connection carry that connection's handle:

- socket `onopen`, `onclose`, `onmessage`;
- `ondatachannel`, `ontrack`, `onicecandidate`;
- the three state-change handlers;
- a timer firing;
- a conning channel opening.

Each class keeps a `Valid()` invariant. Every method guarantees progress;
where the code would throw, the method returns `Fail(error)` instead.

The vessel is composed around a `Peer` (field `peer`) rather than inheriting
from it. `VesselInterface` overrides one peer method, `processMessage`. It
also defines `onWsOpen` and `onWsClose`, which `Peer` does not define: the
peer's socket handlers call them as optional hooks (peer.js:22-23,
peer.js:27-28). In each of these places the vessel method runs the peer's
own steps and the vessel's in the order the source runs them.

Modules:

| module | file | what it holds |
|---|---|---|
| `Wire` | wire.dfy | handles, messages, effects, errors, and `SentOn`/`SentOnChannel`, which read the log |
| `Registry` | registry.dfy | what teardown does to the registry, as a function, with its lemmas |
| `Conning` | conning.dfy | the sentence drain as a function of which ticks find a channel, with its lemmas |
| `Targets` | targets.dfy | resolution of the MOC host or URL |
| `PeerCore` | peer.dfy | `class Peer` |
| `VesselCore` | vessel.dfy | `class VesselInterface` |
| `Scenarios` | scenarios.dfy | whole sessions run against a fresh vessel |

In these places the code behaves other than its structure suggests; the model
follows the code:

- `register` with a socket already recorded does not close that socket.
  It reads the `ws` binding before its `const` declaration (peer.js:9, peer.js:15) and throws.
  `Peer.Register` returns `Fail(SocketInTdz)` and changes nothing.
- Teardown does not detach every handler.
  `ondatachannel` and `onconnectionstatechange` stay live after `closeConnection` (peer.js:120-127).
  The model keeps these two live for connections in `detached`.
- An inbound `bye` is not treated as an alias of `hangup`.
  `processMessage` ignores the field.
- `contactMOC` reads `this.status.nmea`, so without a status it throws (`Fail(MissingStatus)`).

## Model

| member | source | states |
|---|---|---|
| `Registry.DrainIsReverseOrder` | peer.js:128-133 | draining the registry by `pop` tears the streams down in reverse registration order |
| `Registry.DrainTouchesExactly` | peer.js:129-133 | teardown calls `stop` on exactly the registered streams that have it, and `close` on exactly those that have it, and touches no other stream |
| `Registry.DrainLength` | peer.js:129-133 | teardown makes at most two calls per stream, and none when no stream exposes `stop` or `close` |
| `PeerCore.FanOut` | peer.js:75-77 | one inbound payload reaches every processor, once each, in list order |
| `PeerCore.FanOutDelivers` | peer.js:75-77 | read back from the log, a fan-out delivers its payload to exactly the processors of the list, in order, and delivers no other payload |
| `PeerCore.Peer.constructor` | peer.js:3-5 | a new peer has no socket, no connection, an empty registry and an empty log |
| `PeerCore.Peer.Register` | peer.js:7-16 | with a socket recorded it fails and changes nothing; otherwise it tears down any connection, then creates one new socket holding the initial message, without recording it yet |
| `PeerCore.Peer.SendMessage` | peer.js:44-49 | fails without a socket; otherwise sends exactly one message, on the recorded socket |
| `PeerCore.Peer.AdoptSocket` | peer.js:17-21 | on open the socket is recorded, then its initial message, if any, is sent on it |
| `PeerCore.Peer.SocketOpened` | peer.js:17-25 | record, then send the initial message, then call `onWsOpen`, in that order |
| `PeerCore.Peer.ReleaseSocket` | peer.js:30-31 | the socket is forgotten, then the connection is torn down |
| `PeerCore.Peer.SocketClosed` | peer.js:26-32 | `onWsClose`, then forget the socket, then teardown, in that order |
| `PeerCore.Peer.SocketMessage` | peer.js:33-41 | a payload that does not parse throws and changes nothing; a parsed one is processed |
| `PeerCore.Peer.CreateConnection` | peer.js:51-115 | with a connection held nothing changes, so at most one is held; otherwise one fresh connection is made with the stored ICE servers |
| `PeerCore.Peer.CloseConnection` | peer.js:117-137 | with a connection: detach its handlers, tear the registry down last-to-first, close it, and leave no connection and an empty registry; without one, nothing changes |
| `PeerCore.Peer.Bye` | peer.js:139-142 | without a socket, fails and changes nothing; otherwise sends one `{bye: true}`, then tears down |
| `PeerCore.Peer.CreateDataChannel` | peer.js:144-151 | without a connection, fails and changes nothing; otherwise appends exactly one new channel to the end of the registry |
| `PeerCore.Peer.ProcessMessage` | peer.js:153-190 | adopt `iceServers`, negotiate (failing without a connection), on a truthy `hangup` call `onHangup` then tear down, and call `onmessage` last; socket, connections and handles untouched |
| `PeerCore.Peer.Negotiate` | peer.js:158-180 | a candidate and a description go to the current connection, and an offer starts an answer; without a connection they throw before anything changes |
| `PeerCore.Peer.HangupStep` | peer.js:181-186 | a truthy `hangup` calls `onHangup` and then tears down; any other message changes nothing |
| `PeerCore.Peer.Conclude` | peer.js:181-189 | the hangup branch followed by `onmessage` with the same message |
| `PeerCore.Peer.AnswerReady` | peer.js:172-176 | an accepted offer's answer becomes the local description and is sent as `{sdp: …}` |
| `PeerCore.Peer.DataChannelArrived` | peer.js:61-78 | appends exactly one channel to the registry and routes its payloads to the processors |
| `PeerCore.Peer.ChannelMessage` | peer.js:75-77 | every processor of the channel receives the payload, in list order |
| `PeerCore.Peer.IceCandidateFound` | peer.js:79-82 | while attached, each local candidate is sent as its own `{ice: …}` |
| `PeerCore.Peer.IceStateChanged` | peer.js:83-88 | while attached, reaching `connected` calls `onconnected('iceConnected')` |
| `PeerCore.Peer.SignalingStateChanged` | peer.js:89-94 | while attached, `closed` drops the connection reference without draining the registry |
| `PeerCore.Peer.ConnectionStateChanged` | peer.js:95-100 | `closed`, `failed` or `disconnected` drops the connection reference without draining the registry, even after teardown |
| `PeerCore.Peer.TrackArrived` | peer.js:101-107 | while attached, appends exactly one stream to the registry, then calls `onstream` |
| `PeerCore.Peer.NegotiationNeeded` | peer.js:108-112 | while attached, the offer becomes the local description and is sent as `{sdp: …}` |
| `Targets.ResolveTarget` | vessel.js:34-39 | an absolute URL is kept as given; anything else becomes `https://<host>/vessels/<mmsi>`; the result is absolute either way |
| `Targets.ComposedEndsWithMmsi` | vessel.js:38 | a composed target ends with `/vessels/` followed by the identity |
| `VesselCore.AfterShare` | vessel.js:79-84 | sharing conning makes a connection only when none is held, and appends exactly one unordered `conning:nmea` channel |
| `VesselCore.VesselInterface.constructor` | vessel.js:6-9 | a new vessel holds the host's callbacks and its identity, and has no status, timer or conning channel |
| `VesselCore.VesselInterface.SetMmsi` | vessel.js:15-20 | tears down any connection before storing the new identity; without a connection only the identity changes |
| `VesselCore.VesselInterface.ContactMoc` | vessel.js:30-45 | fails without an identity or a status; otherwise registers with the resolved target and the protocol tag, sending the handshake once the socket opens |
| `VesselCore.VesselInterface.ProcessMessage` | vessel.js:47-56 | without a request the peer processes the message; a request's `iceServers` are stored before it is handled; a request without `conning` fails and stops the message there; a conning request shares conning, records the new channel, and the peer then processes the message |
| `VesselCore.VesselInterface.HandleRequest` | vessel.js:58-62 | a truthy `conning` field shares conning; any other request fails and changes nothing |
| `VesselCore.VesselInterface.ShareConning` | vessel.js:79-84 | the peer ends in the state `AfterShare` gives, and the new channel becomes `conning` |
| `VesselCore.VesselInterface.SendNmeas` | vessel.js:65-77 | an empty list schedules nothing; otherwise one timer is set, holding the first sentence and the rest |
| `VesselCore.VesselInterface.ConningOpened` | vessel.js:85-88 | the greeting goes out on the current conning channel before any sentence, and the drain starts from a copy of the list, which is left as it was; without a conning channel it throws |
| `VesselCore.VesselInterface.DrainTick` | vessel.js:71-76 | a drain timer sends its sentence only when a conning channel exists, then schedules the rest |
| `VesselCore.VesselInterface.StatusReport` | vessel.js:91-107 | a supplied message becomes the status; with none, the default status takes the first sentence off the list; a timer starts only if none exists |
| `VesselCore.VesselInterface.StatusTick` | vessel.js:92-98 | sends the current status only while a socket exists, then sets itself again |
| `VesselCore.VesselInterface.Hangup` | vessel.js:109-120 | tears down and drops `conning`; with a socket, sends exactly one `{hangup: true}`, forgets the socket, and schedules its close |
| `VesselCore.VesselInterface.OnWsOpen` | vessel.js:122-127 | starts status reporting only when no timer exists, then calls `onconnected` |
| `VesselCore.VesselInterface.OnWsClose` | vessel.js:129-139 | clears the status timer and calls `disconnected`; alerts only when a socket was still recorded |
| `VesselCore.VesselInterface.SocketOpened` | vessel.js:122-127 | on a vessel, the peer's open steps are followed by the vessel's `onWsOpen` |
| `VesselCore.VesselInterface.SocketClosed` | vessel.js:129-139 | on a vessel, `onWsClose` runs, then the peer forgets the socket and tears down |
| `VesselCore.VesselInterface.SocketMessage` | vessel.js:47-56 | a payload that does not parse fails and changes nothing; a parsed one ends exactly as the vessel's `processMessage` does: without a request the peer processes it, a request without `conning` fails after its `iceServers` are stored, and a conning request shares conning and then the peer processes the message |
| `Conning.StartPendingIsList` | vessel.js:65-69 | starting a drain loses and reorders no sentence |
| `Conning.AfterDropsPrefix` | vessel.js:65-77 | each tick takes exactly the first pending sentence, and after one tick per sentence nothing is scheduled |
| `Conning.RunSelects` | vessel.js:71-76 | the sentences go out in order, each exactly when its tick finds a conning channel |
| `Conning.DrainDelivery` | vessel.js:65-77 | with the channel present on every tick the whole list is sent in order; with it absent on every tick nothing is sent |
| `Scenarios.HangupBeforeCloseRaisesNoAlert` | vessel.js:109-139 | after a local hangup the socket's closing raises no alert, and the MOC received the handshake and exactly one `{hangup: true}` |
| `Scenarios.LostSocketRaisesOneAlert` | vessel.js:129-139 | a socket lost without hangup raises the alert exactly once; in this session, which holds no connection, it is the last effect |
| `Scenarios.ConningDeliversAllInOrder` | vessel.js:64-89 | after a conning request, the channel receives the greeting and then every sentence of the list, in order |
| `Scenarios.DrainAll` | vessel.js:65-77 | firing every timer of a drain while the channel is present delivers all its pending sentences in order |
| `Scenarios.StatusTicksSendCurrentStatus` | vessel.js:91-107 | two status ticks on an open socket send exactly two copies of the current status after the handshake |
| `Scenarios.InboundChannelFansOut` | peer.js:61-77 | after a channel arrives and carries a payload, exactly the processors of the array `ondatachannel` returned receive it, once each and in order; none do when there is no callback or it returned no array |
| `Scenarios.CloseConnectionTwice` | peer.js:117-137 | a second `closeConnection` changes nothing: N calls equal one |

## Left out

- VesselCore.VesselInterface.ContactMoc: `capabilities` at vessel.js:41 is a free variable. The model treats it as an ambient input passed in by the caller. The ReferenceError it raises whenever the page defines no global of that name is not modelled, so under those conditions the model registers where the code throws before making any socket.
- The real WebSocket, RTCPeerConnection and data channel objects are opaque handles. Creating `RTCIceCandidate` and `RTCSessionDescription` objects is not modelled.
- The promise chains of `addIceCandidate`, `createOffer` and `createAnswer`/`setLocalDescription` are abstracted. An accepted offer is recorded as pending. `AnswerReady` and `NegotiationNeeded` are the events that finish it. A rejected promise is not modelled.
- The choice of `ws`/`wss` from `window.location` (peer.js:14) is not modelled. Neither is the interpolation of the URL object into the socket address (peer.js:15): the socket records the target URL as given.
- JSON serialization and parsing are left out. A message is a structured value, and a payload that does not parse is an absent message.
- `Targets.IsAbsoluteUrl` is an approximation of `new URL` succeeding: a letter, then scheme characters, then a colon. The case where `new URL` fails on the composed address is not modelled.
- The sentence list is a module-level array shared by every vessel in the same page. Here each vessel holds its own list.
- Console logging is left out. So are `ws.onerror` (which only logs) and the unused `params` argument of `shareConning`.
- Timers are handles with explicit set, clear and fire events. `ws.close()` after the hang-up grace period is the effect `SocketCloseScheduled`; the socket's later `onclose` is a separate event.
- A conning channel's `send` on a channel that is not open (a browser `InvalidStateError`) is not modelled.
- Property assignment overriding the vessel's own `onWsOpen`/`onWsClose` through the constructor's `properties` is not modelled. Host callbacks are the set `hooks`.
- A `track` event whose `streams` list is empty (registering `undefined`) is not modelled. The event carries one stream.
- JavaScript truthiness is modelled for null, booleans, integers and strings. NaN, fractions and objects are not.
- The `lat` and `long` getters just read a field and are not modelled.
