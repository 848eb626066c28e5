/** The conning drain as a specification: the chain of one-second timers that
    sends a copy of the sentence list over the conning channel, one sentence
    per tick, skipping a tick's send when no conning channel is present. */
module Conning {
  import opened Wire

  /** One pending drain timer: the sentence it will send when it fires and the
      part of the copied list that is still to come. */
  datatype Drain = Drain(next: string, rest: seq<string>)

  /** `sendNMEAs(sentences)`: nothing is scheduled for an empty list; otherwise
      the first sentence is taken off and a timer is set for it. */
  function Start(sentences: seq<string>): Option<Drain> {
    if |sentences| < 1 then None else Some(Drain(sentences[0], sentences[1..]))
  }

  /** What the timer schedules after it has fired. */
  function Next(d: Drain): Option<Drain> {
    Start(d.rest)
  }

  /** The sentences a drain has still to send. */
  function Pending(d: Option<Drain>): seq<string> {
    if d.None? then [] else [d.value.next] + d.value.rest
  }

  /** The sentences sent over successive ticks; `live[i]` says whether a
      conning channel is present when the i-th tick fires. */
  function Run(d: Option<Drain>, live: seq<bool>): seq<string>
    decreases |live|
  {
    if d.None? || live == [] then []
    else (if live[0] then [d.value.next] else []) + Run(Next(d.value), live[1..])
  }

  /** The drain left after `ticks` ticks. */
  function After(d: Option<Drain>, ticks: nat): Option<Drain>
    decreases ticks
  {
    if d.None? || ticks == 0 then d else After(Next(d.value), ticks - 1)
  }

  /** Reference definition: keep the i-th sentence exactly when the i-th tick is live. */
  function Select(s: seq<string>, live: seq<bool>): seq<string>
    decreases |s|
  {
    if s == [] || live == [] then []
    else (if live[0] then [s[0]] else []) + Select(s[1..], live[1..])
  }

  /** Starting a drain loses and reorders nothing. */
  lemma StartPendingIsList(s: seq<string>)
    ensures Pending(Start(s)) == s
  {
    if s != [] {
      assert [s[0]] + s[1..] == s;
    }
  }

  /** Each tick takes exactly the first pending sentence: after `n` ticks the
      drain holds the list without its first `n` sentences, so after `|s|`
      ticks nothing is left scheduled. */
  lemma {:induction false} AfterDropsPrefix(s: seq<string>, n: nat)
    requires n <= |s|
    ensures After(Start(s), n) == Start(s[n..])
    ensures n == |s| ==> After(Start(s), n).None?
  {
    if n == 0 {
      assert s[0..] == s;
    } else {
      assert Next(Start(s).value) == Start(s[1..]);
      AfterDropsPrefix(s[1..], n - 1);
      assert s[1..][n - 1..] == s[n..];
    }
  }

  /** The sentences go out in their original order, the i-th exactly when
      the i-th tick finds a conning channel. */
  lemma {:induction false} RunSelects(s: seq<string>, live: seq<bool>)
    ensures Run(Start(s), live) == Select(s, live)
  {
    if s != [] && live != [] {
      assert Next(Start(s).value) == Start(s[1..]);
      RunSelects(s[1..], live[1..]);
    }
  }

  lemma {:induction false} SelectAllLive(s: seq<string>, live: seq<bool>)
    requires |s| <= |live|
    requires forall i :: 0 <= i < |live| ==> live[i]
    ensures Select(s, live) == s
  {
    if s != [] {
      assert live[1..][0..] == live[1..];
      SelectAllLive(s[1..], live[1..]);
      assert [s[0]] + s[1..] == s;
    }
  }

  lemma {:induction false} SelectNoneLive(s: seq<string>, live: seq<bool>)
    requires forall i :: 0 <= i < |live| ==> !live[i]
    ensures Select(s, live) == []
  {
    if s != [] && live != [] {
      SelectNoneLive(s[1..], live[1..]);
    }
  }

  /** With the channel present at every tick, the channel receives the whole
      list, in order; with it absent at every tick, it receives nothing. */
  lemma DrainDelivery(s: seq<string>, live: seq<bool>)
    ensures |s| <= |live| && (forall i :: 0 <= i < |live| ==> live[i]) ==> Run(Start(s), live) == s
    ensures (forall i :: 0 <= i < |live| ==> !live[i]) ==> Run(Start(s), live) == []
  {
    RunSelects(s, live);
    if |s| <= |live| && (forall i :: 0 <= i < |live| ==> live[i]) {
      SelectAllLive(s, live);
    }
    if forall i :: 0 <= i < |live| ==> !live[i] {
      SelectNoneLive(s, live);
    }
  }
}
