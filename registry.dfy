/** The stream registry's teardown, as a specification: what closing a
    connection does to the streams it tracks, and in which order. */
module Registry {
  import opened Wire

  /** What teardown does to one stream: `stop()` if it has one, then `close()` if it has one. */
  function StreamTeardown(st: Stream): seq<Effect> {
    (if st.canStop then [Stopped(st)] else []) + (if st.canClose then [Closed(st)] else [])
  }

  /** The effects of draining `streams` by popping from its end until it is empty. */
  function DrainEffects(streams: seq<Stream>): seq<Effect>
    decreases |streams|
  {
    if streams == [] then []
    else StreamTeardown(streams[|streams| - 1]) + DrainEffects(streams[..|streams| - 1])
  }

  /** The whole teardown of connection `c` holding `streams`: detach the
      handlers, drain the registry, close the connection. */
  function Teardown(c: Conn, streams: seq<Stream>): seq<Effect> {
    [HandlersDetached(c)] + DrainEffects(streams) + [ConnectionClosed(c)]
  }

  /** The effects of `closeConnection` given the connection it finds (none: nothing happens). */
  function TeardownIfAny(c: Option<Conn>, streams: seq<Stream>): seq<Effect> {
    if c.Some? then Teardown(c.value, streams) else []
  }

  function Reverse<T>(s: seq<T>): seq<T> {
    if s == [] then [] else Reverse(s[1..]) + [s[0]]
  }

  /** Each stream's teardown, concatenated in the order of `streams`. */
  function TeardownEach(streams: seq<Stream>): seq<Effect> {
    if streams == [] then [] else StreamTeardown(streams[0]) + TeardownEach(streams[1..])
  }

  lemma {:induction false} ReverseSnoc<T>(s: seq<T>, x: T)
    ensures Reverse(s + [x]) == [x] + Reverse(s)
  {
    if s == [] {
      assert s + [x] == [x];
      assert Reverse([x]) == Reverse([x][1..]) + [x];
    } else {
      assert (s + [x])[1..] == s[1..] + [x];
      ReverseSnoc(s[1..], x);
    }
  }

  /** The registry is drained last-to-first: draining is the same as tearing
      down each stream in reversed registration order. */
  lemma {:induction false} DrainIsReverseOrder(streams: seq<Stream>)
    ensures DrainEffects(streams) == TeardownEach(Reverse(streams))
  {
    if streams != [] {
      var n := |streams|;
      var init, last := streams[..n - 1], streams[n - 1];
      assert streams == init + [last];
      ReverseSnoc(init, last);
      DrainIsReverseOrder(init);
      var r := Reverse(init);
      assert ([last] + r)[0] == last && ([last] + r)[1..] == r;
    }
  }

  /** Teardown stops exactly the registered streams that can be stopped and
      closes exactly those that can be closed; it touches no other stream. */
  lemma {:induction false} DrainTouchesExactly(streams: seq<Stream>, x: Stream)
    ensures Stopped(x) in DrainEffects(streams) <==> x in streams && x.canStop
    ensures Closed(x) in DrainEffects(streams) <==> x in streams && x.canClose
  {
    if streams != [] {
      var n := |streams|;
      var init, last := streams[..n - 1], streams[n - 1];
      assert streams == init + [last];
      DrainTouchesExactly(init, x);
      assert Stopped(x) in StreamTeardown(last) <==> x == last && x.canStop;
      assert Closed(x) in StreamTeardown(last) <==> x == last && x.canClose;
    }
  }

  /** Each stream contributes at most one stop and one close, so teardown
      makes no more calls than twice the number of tracked streams. */
  lemma {:induction false} DrainLength(streams: seq<Stream>)
    ensures |DrainEffects(streams)| <= 2 * |streams|
    ensures (forall i :: 0 <= i < |streams| ==> !streams[i].canStop && !streams[i].canClose) ==> DrainEffects(streams) == []
  {
    if streams != [] {
      DrainLength(streams[..|streams| - 1]);
    }
  }
}
