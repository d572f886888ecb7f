/**
 * The heartbeat failure detector of a peer: its lifecycle states, the guard on
 * Disconnect, and one iteration of the heartbeat loop, as functions of the
 * state, the time of the last received heartbeat and the current time (integer
 * seconds). The lemmas follow a peer through any interleaving of ticks,
 * received heartbeats and the end of its packet stream.
 */
module FailureDetector {

  /** The lifecycle states of a peer, in the source's order. */
  datatype PeerState = Disconnected | Connecting | Handshake | Connected | Defib

  /** Seconds of silence after which a tick marks the peer Defib. */
  const DEFIB_SILENCE: int := 5

  /** Seconds of silence after which a tick in Defib gives the peer up. */
  const DEAD_SILENCE: int := 10

  /** The state after a tick's Defib check: a peer silent for strictly more than
      five seconds becomes Defib whatever its state, and nothing else changes. */
  function Escalate(s: PeerState, last: int, now: int): (s': PeerState)
    ensures s' == Defib <==> (now > last + DEFIB_SILENCE || s == Defib)
    ensures s' != Defib ==> s' == s
  {
    if now > last + DEFIB_SILENCE then Defib else s
  }

  /** The state change Disconnect makes: only a Connected peer is disconnected;
      in every other state Disconnect does nothing. */
  function AfterDisconnect(s: PeerState): (s': PeerState)
    ensures s' == Disconnected <==> (s == Connected || s == Disconnected)
    ensures s' != s <==> s == Connected
  {
    if s == Connected then Disconnected else s
  }

  /** What one tick of the heartbeat loop does: the state it leaves, whether it
      sent a heartbeat, whether its Disconnect call took effect, and whether the
      loop ends. */
  datatype TickResult = TickResult(state: PeerState, heartbeatSent: bool, dropped: bool, loopEnds: bool)

  /** One iteration of the heartbeat loop; `sendFails` is the outcome of the
      heartbeat write. */
  function Tick(s: PeerState, last: int, now: int, sendFails: bool): (r: TickResult)
    // A heartbeat goes out exactly when the peer is still Connected after the Defib check.
    ensures r.heartbeatSent <==> Escalate(s, last, now) == Connected
    // Only a failed heartbeat write actually disconnects the peer.
    ensures r.dropped <==> r.heartbeatSent && sendFails
    // The loop ends on a failed write, or in Defib after more than ten seconds of silence.
    ensures r.loopEnds <==> r.dropped || (Escalate(s, last, now) == Defib && now > last + DEAD_SILENCE)
    // A Defib peer stays Defib, even on the path that gives it up.
    ensures Escalate(s, last, now) == Defib ==> r.state == Defib
    ensures r.state == Disconnected <==> r.dropped || Escalate(s, last, now) == Disconnected
    // Otherwise the tick leaves the state of its Defib check.
    ensures r.state == (if r.dropped then Disconnected else Escalate(s, last, now))
  {
    var e := Escalate(s, last, now);
    match e
    case Connected =>
      if sendFails then TickResult(AfterDisconnect(e), true, true, true)
      else TickResult(e, true, false, false)
    case Defib =>
      TickResult(AfterDisconnect(e), false, false, now > last + DEAD_SILENCE)
    case _ =>
      TickResult(e, false, false, false)
  }

  /** Something that happens to a peer: a tick of its heartbeat timer (with the
      outcome of the heartbeat write), a received heartbeat, or the end of its
      packet stream, after which the receive loop calls Disconnect. */
  datatype Stimulus = TickAt(now: int, sendFails: bool) | HeartbeatAt(now: int) | StreamEnd

  /** The part of a peer the failure detector reads and writes. */
  datatype Liveness = Liveness(state: PeerState, last: int)

  function Step(l: Liveness, x: Stimulus): Liveness
  {
    match x
    case TickAt(now, sendFails) => l.(state := Tick(l.state, l.last, now, sendFails).state)
    case HeartbeatAt(now) => l.(last := now)
    case StreamEnd => l.(state := AfterDisconnect(l.state))
  }

  /** The peer after a sequence of stimuli. */
  function Run(l: Liveness, xs: seq<Stimulus>): Liveness
    decreases |xs|
  {
    if xs == [] then l else Run(Step(l, xs[0]), xs[1..])
  }

  /** The number of heartbeats the peer sends during a sequence of stimuli. */
  function HeartbeatsSent(l: Liveness, xs: seq<Stimulus>): nat
    decreases |xs|
  {
    if xs == [] then 0
    else
      var sent := xs[0].TickAt? && Tick(l.state, l.last, xs[0].now, xs[0].sendFails).heartbeatSent;
      (if sent then 1 else 0) + HeartbeatsSent(Step(l, xs[0]), xs[1..])
  }

  /** Once Defib, always Defib: no tick, received heartbeat or end of stream
      brings a peer back to Connected or disconnects it, and it never sends
      another heartbeat. */
  lemma {:induction false} DefibIsAbsorbing(l: Liveness, xs: seq<Stimulus>)
    requires l.state == Defib
    ensures Run(l, xs).state == Defib
    ensures HeartbeatsSent(l, xs) == 0
    decreases |xs|
  {
    if xs != [] {
      DefibIsAbsorbing(Step(l, xs[0]), xs[1..]);
    }
  }

  /** A peer that has been Connected is afterwards only ever Connected, Defib or
      Disconnected: it never goes back to Connecting or Handshake. */
  lemma {:induction false} ConnectedStaysLive(l: Liveness, xs: seq<Stimulus>)
    requires l.state == Connected || l.state == Defib || l.state == Disconnected
    ensures var s := Run(l, xs).state; s == Connected || s == Defib || s == Disconnected
    decreases |xs|
  {
    if xs != [] {
      ConnectedStaysLive(Step(l, xs[0]), xs[1..]);
    }
  }

  /** A Connected peer whose every tick comes within five seconds of the last
      heartbeat it received, and whose heartbeat writes all succeed, stays
      Connected and sends one heartbeat per tick. */
  lemma {:induction false} HealthyPeerStaysConnected(l: Liveness, xs: seq<Stimulus>)
    requires l.state == Connected
    requires forall i :: 0 <= i < |xs| ==> !xs[i].StreamEnd?
    requires forall i :: 0 <= i < |xs| && xs[i].TickAt? ==> !xs[i].sendFails
    requires Timely(l.last, xs)
    ensures Run(l, xs).state == Connected
    ensures HeartbeatsSent(l, xs) == Ticks(xs)
    decreases |xs|
  {
    if xs != [] {
      var l' := Step(l, xs[0]);
      assert l'.state == Connected;
      HealthyPeerStaysConnected(l', xs[1..]);
    }
  }

  /** Every tick in `xs` comes at most five seconds after the latest heartbeat
      received before it (or after `last` when there was none). */
  ghost predicate Timely(last: int, xs: seq<Stimulus>)
    decreases |xs|
  {
    xs == [] ||
    match xs[0]
    case TickAt(now, _) => now <= last + DEFIB_SILENCE && Timely(last, xs[1..])
    case HeartbeatAt(now) => Timely(now, xs[1..])
    case StreamEnd => Timely(last, xs[1..])
  }

  /** The number of ticks in `xs`. */
  function Ticks(xs: seq<Stimulus>): nat
  {
    if xs == [] then 0 else (if xs[0].TickAt? then 1 else 0) + Ticks(xs[1..])
  }
}
