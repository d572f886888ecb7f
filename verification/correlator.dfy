/**
 * The reply correlator: the set of request ids a peer is waiting on, how a
 * request registers its id, and how an incoming reply is matched against it.
 * Each pending id stands for the single-use channel the source keeps under it.
 */
module Correlator {
  import opened Wrappers
  import opened Protocol

  /** Registration by SendPacketWaitReply: the request's own id becomes
      pending, and no other id changes. */
  function Expect(pending: set<PacketId>, request: Packet): (p: set<PacketId>)
    ensures request.id in p
    ensures forall x :: x != request.id ==> (x in p <==> x in pending)
  {
    pending + {request.id}
  }

  /** The pending ids after a reply, and the reply if it reached a waiting caller. */
  datatype Routed = Routed(pending: set<PacketId>, delivered: Option<Packet>)

  /** handleReply: a reply to a pending id removes exactly that id and is
      delivered; any other reply is dropped and changes nothing. */
  function Route(pending: set<PacketId>, reply: Packet): (r: Routed)
    ensures r.delivered.Some? <==> reply.requestId in pending
    ensures r.delivered.Some? ==> r.delivered.value == reply
    ensures r.pending == pending - {reply.requestId}
  {
    if reply.requestId in pending then Routed(pending - {reply.requestId}, Some(reply))
    else Routed(pending, None)
  }

  /** The pending ids after a sequence of replies, and the replies delivered, in order. */
  datatype Routing = Routing(pending: set<PacketId>, delivered: seq<Packet>)

  function RouteAll(pending: set<PacketId>, replies: seq<Packet>): Routing
    decreases |replies|
  {
    if replies == [] then Routing(pending, [])
    else
      var r := Route(pending, replies[0]);
      var rest := RouteAll(r.pending, replies[1..]);
      Routing(rest.pending, ToSeq(r.delivered) + rest.delivered)
  }

  /** The packets of `ps` that answer request `x`, in order. */
  function AnswersTo(ps: seq<Packet>, x: PacketId): seq<Packet>
    decreases |ps|
  {
    if ps == [] then []
    else (if ps[0].requestId == x then [ps[0]] else []) + AnswersTo(ps[1..], x)
  }

  /** The first packet of `ps` that answers request `x`. */
  function FirstAnswer(ps: seq<Packet>, x: PacketId): (r: Option<Packet>)
    ensures r.Some? ==> r.value in ps && r.value.requestId == x
    ensures r.None? ==> forall i :: 0 <= i < |ps| ==> ps[i].requestId != x
    decreases |ps|
  {
    if ps == [] then None
    else if ps[0].requestId == x then Some(ps[0])
    else FirstAnswer(ps[1..], x)
  }

  lemma {:induction false} AnswersToAppend(a: seq<Packet>, b: seq<Packet>, x: PacketId)
    ensures AnswersTo(a + b, x) == AnswersTo(a, x) + AnswersTo(b, x)
    decreases |a|
  {
    if a == [] {
      assert a + b == b;
    } else {
      assert (a + b)[0] == a[0] && (a + b)[1..] == a[1..] + b;
      AnswersToAppend(a[1..], b, x);
    }
  }

  /** A caller waiting on `x` receives exactly the first reply that answers
      `x`, even when unrelated replies arrive before it, and receives nothing
      if no reply answers it (its id then stays pending). A reply to an id
      nobody waits on is never delivered. */
  lemma {:induction false} WaiterGetsFirstAnswer(pending: set<PacketId>, replies: seq<Packet>, x: PacketId)
    ensures var r := RouteAll(pending, replies);
      && (x in pending ==> AnswersTo(r.delivered, x) == ToSeq(FirstAnswer(replies, x)))
      && (x !in pending ==> AnswersTo(r.delivered, x) == [])
      && (x in r.pending <==> x in pending && FirstAnswer(replies, x).None?)
    decreases |replies|
  {
    if replies != [] {
      var r := Route(pending, replies[0]);
      var rest := RouteAll(r.pending, replies[1..]);
      WaiterGetsFirstAnswer(r.pending, replies[1..], x);
      AnswersToAppend(ToSeq(r.delivered), rest.delivered, x);
      assert r.delivered.Some? ==> ToSeq(r.delivered) == [replies[0]];
      assert AnswersTo(ToSeq(r.delivered), x) ==
        (if r.delivered.Some? && replies[0].requestId == x then [replies[0]] else []);
    }
  }
}
