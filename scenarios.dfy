/** Whole sessions played against a fresh vessel, each stating what the
    outside world observes at the end. */
module Scenarios {
  import opened Wire
  import opened Registry
  import opened Conning
  import opened PeerCore
  import opened VesselCore

  /** The status a fresh vessel reports first: the supplied one, or the default. */
  function FirstStatus(message: Option<Msg>, sentences: seq<string>): Msg {
    if message.Some? then message.value else DefaultStatus(sentences)
  }

  function Hello(st: Msg): Msg {
    Handshake("", DefaultGuidance, st.nmea)
  }

  /** The effects of the opening of a session: the status timer starts, the
      socket is made, and once it opens the handshake goes out. */
  function Session(st: Msg): seq<Effect> {
    [TimerSet(Timer(0), FirstStatusDelay),
     SocketCreated(Socket(0), Targets.ResolveTarget("moc.example.org", "123456789"), Protocol),
     Sent(Socket(0), Hello(st))]
  }

  lemma SessionSent(st: Msg)
    ensures SentOn(Session(st), Socket(0)) == [Hello(st)]
  {
    var l := Session(st);
    var s := Socket(0);
    SentOnCons(l[2], [], s);
    assert [l[2]] + [] == l[2..];
    SentOnCons(l[1], l[2..], s);
    assert [l[1]] + l[2..] == l[1..];
    SentOnCons(l[0], l[1..], s);
    assert [l[0]] + l[1..] == l;
  }

  /** A vessel with identity `123456789` that has started reporting, contacted
      the MOC and seen its socket open. */
  method Greeted(sentences: seq<string>, message: Option<Msg>) returns (v: VesselInterface)
    ensures fresh(v) && fresh(v.peer) && v.Valid()
    ensures v.peer.hooks == {} && v.peer.ws == Some(Socket(0)) && v.peer.connection == None
    ensures v.status == Some(FirstStatus(message, sentences))
    ensures v.statusTimer == Some(Timer(0)) && v.nextTimer == 1 && v.conning == None
    ensures v.peer.log == Session(FirstStatus(message, sentences))
  {
    v := new VesselInterface({}, Some("123456789"), sentences);
    v.StatusReport(message);
    assert v.status == Some(FirstStatus(message, sentences));
    assert v.peer.log == [TimerSet(Timer(0), FirstStatusDelay)];
    var r := v.ContactMoc("moc.example.org", "", None);
    assert v.peer.log == Session(FirstStatus(message, sentences))[..2];
    v.SocketOpened(Socket(0));
  }

  /** A session the vessel hangs up itself: the socket is forgotten before it
      closes, so its closing raises no alert; the MOC receives the handshake
      and then exactly one `{hangup: true}`. */
  method HangupBeforeCloseRaisesNoAlert(sentences: seq<string>) returns (log: seq<Effect>)
    ensures Alerted(LostMoc) !in log
    ensures SentOn(log, Socket(0)) == [Handshake("", DefaultGuidance, Head(sentences)), HangupMsg]
  {
    var v := Greeted(sentences, None);
    v.Hangup();
    assert v.peer.log == Session(DefaultStatus(sentences)) + HangupTail()[..2];
    v.SocketClosed(Socket(0));
    log := v.peer.log;
    assert log == Session(DefaultStatus(sentences)) + HangupTail();
    HungUpSent(sentences);
  }

  /** What follows the opening of a session the vessel hangs up itself. */
  function HangupTail(): seq<Effect> {
    [Sent(Socket(0), HangupMsg), SocketCloseScheduled(Socket(0), HangupGrace), TimerCleared(Timer(0))]
  }

  lemma HungUpSent(sentences: seq<string>)
    ensures SentOn(Session(DefaultStatus(sentences)) + HangupTail(), Socket(0)) == [Handshake("", DefaultGuidance, Head(sentences)), HangupMsg]
  {
    var b, s := HangupTail(), Socket(0);
    SentOnConcat(Session(DefaultStatus(sentences)), b, s);
    SessionSent(DefaultStatus(sentences));
    SentOnCons(b[2], [], s);
    assert [b[2]] + [] == b[2..];
    SentOnCons(b[1], b[2..], s);
    assert [b[1]] + b[2..] == b[1..];
    SentOnCons(b[0], b[1..], s);
    assert [b[0]] + b[1..] == b;
  }

  /** A session whose socket is lost: the operator is alerted exactly once,
      and, as this session holds no connection to tear down, the alert is
      the last thing that happens. */
  method LostSocketRaisesOneAlert(sentences: seq<string>) returns (log: seq<Effect>)
    ensures multiset(log)[Alerted(LostMoc)] == 1
    ensures log != [] && log[|log| - 1] == Alerted(LostMoc)
  {
    var v := Greeted(sentences, None);
    v.SocketClosed(Socket(0));
    log := v.peer.log;
    assert log == Session(DefaultStatus(sentences)) + [TimerCleared(Timer(0)), Alerted(LostMoc)];
  }

  /** A fresh vessel that has answered a conning request: one connection,
      one conning channel, nothing sent on it yet. */
  method Shared(sentences: seq<string>) returns (v: VesselInterface, ch: Stream)
    ensures fresh(v) && fresh(v.peer) && v.Valid()
    ensures ch == Stream(1, ConningLabel, false, false, true)
    ensures v.conning == Some(ch) && ch in v.conningChannels && v.sentences == sentences
    ensures v.drains == map[] && v.nextTimer == 0
    ensures v.peer.log == [ConnectionCreated(Conn(0), None), ChannelCreated(Conn(0), ch)]
  {
    v := new VesselInterface({}, None, sentences);
    var r := v.ProcessMessage(Blank.(request := Some(Request(Some(Bool(true)), None))));
    ch := v.conning.value;
  }

  /** Effects that send nothing on a channel add nothing to what it received. */
  lemma {:induction false} SentOnChannelQuiet(rest: seq<Effect>, ch: Stream)
    requires forall i :: 0 <= i < |rest| ==> !rest[i].ChannelSent?
    ensures SentOnChannel(rest, ch) == []
  {
    if rest != [] {
      SentOnChannelQuiet(rest[1..], ch);
    }
  }

  /** One event that sends at most `e` on channels: the channel's record grows by `e`'s payload. */
  lemma SentOnChannelStep(l: seq<Effect>, e: Effect, rest: seq<Effect>, ch: Stream)
    requires forall i :: 0 <= i < |rest| ==> !rest[i].ChannelSent?
    ensures SentOnChannel(l + [e] + rest, ch) == SentOnChannel(l, ch) + (if e.ChannelSent? && e.ch == ch then [e.payload] else [])
  {
    SentOnChannelQuiet(rest, ch);
    SentOnChannelCons(e, rest, ch);
    assert l + [e] + rest == l + ([e] + rest);
    SentOnChannelConcat(l, [e] + rest, ch);
  }

  /** The vessel of `Shared` once the conning channel has opened: it has been
      greeted and the drain of the sentence list is pending. */
  method Opened(sentences: seq<string>) returns (v: VesselInterface, ch: Stream)
    ensures fresh(v) && fresh(v.peer) && v.Valid()
    ensures ch.name == ConningLabel && !ch.ordered && v.conning == Some(ch)
    ensures v.drains == (if Start(sentences).Some? then map[Timer(0) := Start(sentences).value] else map[])
    ensures SentOnChannel(v.peer.log, ch) == [Greeting]
  {
    v, ch := Shared(sentences);
    ghost var before := v.peer.log;
    SentOnChannelQuiet(before, ch);
    var r := v.ConningOpened(ch);
    ghost var after := v.peer.log[|before| + 1..];
    assert v.peer.log == before + [ChannelSent(ch, Greeting)] + after;
    SentOnChannelStep(before, ChannelSent(ch, Greeting), after, ch);
  }

  /** One drain timer firing while the conning channel is present: it
      receives the timer's sentence, and the next timer holds the rest. */
  method DrainStep(v: VesselInterface, ch: Stream, u: Timer, ghost d: Drain) returns (next: Timer)
    requires v.Valid() && v.conning == Some(ch) && v.drains == map[u := d]
    modifies v`drains, v`nextTimer, v.peer`log
    ensures v.Valid() && v.conning == Some(ch)
    ensures v.drains == (if Next(d).Some? then map[next := Next(d).value] else map[])
    ensures SentOnChannel(v.peer.log, ch) == old(SentOnChannel(v.peer.log, ch)) + [d.next]
  {
    next := Timer(v.nextTimer);
    ghost var prior := v.peer.log;
    v.DrainTick(u);
    assert map[u := d] - {u} == map[];
    ghost var after := v.peer.log[|prior| + 1..];
    assert v.peer.log == prior + [ChannelSent(ch, d.next)] + after;
    SentOnChannelStep(prior, ChannelSent(ch, d.next), after, ch);
  }

  /** Every timer of a drain firing in turn, the conning channel present
      throughout: the channel receives every pending sentence, in order. */
  method DrainAll(v: VesselInterface, ch: Stream, u: Timer, d: Drain)
    requires v.Valid() && v.conning == Some(ch) && v.drains == map[u := d]
    modifies v`drains, v`nextTimer, v.peer`log
    ensures v.Valid() && v.conning == Some(ch) && v.drains == map[]
    ensures SentOnChannel(v.peer.log, ch) == old(SentOnChannel(v.peer.log, ch)) + [d.next] + d.rest
    decreases |d.rest|
  {
    var next := DrainStep(v, ch, u, d);
    StartPendingIsList(d.rest);
    if Next(d).Some? {
      DrainAll(v, ch, next, Next(d).value);
    }
  }

  /** A conning request followed by the channel opening and every drain
      timer firing: the conning channel receives the greeting and then the
      whole sentence list, in order. */
  method ConningDeliversAllInOrder(sentences: seq<string>) returns (ch: Stream, log: seq<Effect>)
    ensures ch.name == ConningLabel && !ch.ordered
    ensures SentOnChannel(log, ch) == [Greeting] + sentences
  {
    var v: VesselInterface;
    v, ch := Opened(sentences);
    if Start(sentences).Some? {
      DrainAll(v, ch, Timer(0), Start(sentences).value);
    }
    StartPendingIsList(sentences);
    log := v.peer.log;
  }

  /** Once started, status reporting sends the current status on every tick
      while the socket is open: two ticks, two copies of it. */
  method StatusTicksSendCurrentStatus(sentences: seq<string>, status: Msg) returns (log: seq<Effect>)
    ensures SentOn(log, Socket(0)) == [Hello(status), status, status]
  {
    var v := Greeted(sentences, Some(status));
    v.StatusTick();
    v.StatusTick();
    log := v.peer.log;
    assert log == Session(status) + TickTail(status);
    TicksSent(status);
  }

  function TickTail(status: Msg): seq<Effect> {
    [Sent(Socket(0), status), TimerSet(Timer(1), StatusPeriod), Sent(Socket(0), status), TimerSet(Timer(2), StatusPeriod)]
  }

  lemma TicksSent(status: Msg)
    ensures SentOn(Session(status) + TickTail(status), Socket(0)) == [Hello(status), status, status]
  {
    var b, s := TickTail(status), Socket(0);
    SentOnConcat(Session(status), b, s);
    SessionSent(status);
    SentOnCons(b[3], [], s);
    assert [b[3]] + [] == b[3..];
    SentOnCons(b[2], b[3..], s);
    assert [b[2]] + b[3..] == b[2..];
    SentOnCons(b[1], b[2..], s);
    assert [b[1]] + b[2..] == b[1..];
    SentOnCons(b[0], b[1..], s);
    assert [b[0]] + b[1..] == b;
  }

  /** A channel arrives on a fresh peer's connection and then carries one
      payload: the payload reaches exactly the processors of the array the
      host's `ondatachannel` returned, once each and in order, and no
      processor at all when there is no callback or it returned no array. */
  method InboundChannelFansOut(hooks: set<Hook>, ch: Stream, returned: HookReturn, x: string) returns (log: seq<Effect>)
    ensures DeliveredTo(log, x) == if OnDataChannel in hooks && returned.Processors? then returned.procs else []
    ensures forall y :: y != x ==> DeliveredTo(log, y) == []
  {
    var p := new Peer(hooks);
    p.CreateConnection();
    p.DataChannelArrived(p.connection.value, ch, returned);
    ghost var arrived := p.log;
    p.ChannelMessage(ch, x);
    log := p.log;
    ghost var procs := ChannelProcessors(hooks, returned);
    assert log == arrived + FanOut(procs, x);
    forall y
      ensures DeliveredTo(log, y) == if y == x then procs else []
    {
      var notices := arrived[1..];
      assert arrived == [arrived[0]] + notices;
      DeliveredToConcat([arrived[0]], notices, y);
      DeliveredToConcat(notices, [], y);
      assert notices + [] == notices;
      assert |notices| <= 1;
      if notices != [] {
        DeliveredToConcat([notices[0]], [], y);
        assert [notices[0]] + [] == notices;
      }
      DeliveredToConcat(arrived, FanOut(procs, x), y);
      FanOutDelivers(procs, x, y);
    }
  }

  /** `closeConnection` is idempotent: a second call changes nothing. */
  method CloseConnectionTwice(p: Peer)
    requires p.Valid()
    modifies p`connection, p`streams, p`detached, p`log
    ensures p.Valid() && p.TornDown()
    ensures p.log == old(p.log) + TeardownIfAny(old(p.connection), old(p.streams))
  {
    p.CloseConnection();
    ghost var once := p.View();
    p.CloseConnection();
    assert p.View() == once;
  }
}
