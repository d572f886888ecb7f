/**
 * The PEERLIST branch of the receive loop: for each listed address, in list
 * order, a peer skips its own listen address, asks its server whether it is
 * already connected to the address, and asks the server to connect when it is
 * not. The server's answers are inputs, one per listed address.
 */
module Gossip {
  import opened Protocol

  /** The server calls made for one listed address `k`, given the answer the
      server's IsConnectedTo gives for it. */
  function CallsFor(k: string, connected: bool, self: string): seq<Event>
  {
    if k == self then []
    else [IsConnectedTo(k)] + (if connected then [] else [ConnectTo(k)])
  }

  /** The server calls made for a whole peer list, in list order. */
  function GossipCalls(addrs: seq<string>, answers: seq<bool>, self: string): seq<Event>
    requires |answers| == |addrs|
    decreases |addrs|
  {
    if addrs == [] then []
    else
      var n := |addrs| - 1;
      GossipCalls(addrs[..n], answers[..n], self) + CallsFor(addrs[n], answers[n], self)
  }

  /** The addresses in a sequence of calls that the server is asked to connect to, in order. */
  function Dials(es: seq<Event>): seq<string>
    decreases |es|
  {
    if es == [] then []
    else (if es[0].ConnectTo? then [es[0].addr] else []) + Dials(es[1..])
  }

  /** Reference definition: the listed addresses, in list order, that are not
      this node's own address and that the server reported as not connected. */
  function Unconnected(addrs: seq<string>, answers: seq<bool>, self: string): seq<string>
    requires |answers| == |addrs|
    decreases |addrs|
  {
    if addrs == [] then []
    else
      (if addrs[0] != self && !answers[0] then [addrs[0]] else [])
      + Unconnected(addrs[1..], answers[1..], self)
  }

  lemma {:induction false} DialsAppend(a: seq<Event>, b: seq<Event>)
    ensures Dials(a + b) == Dials(a) + Dials(b)
    decreases |a|
  {
    if a == [] {
      assert a + b == b;
    } else {
      assert (a + b)[0] == a[0] && (a + b)[1..] == a[1..] + b;
      DialsAppend(a[1..], b);
    }
  }

  lemma {:induction false} UnconnectedSnoc(addrs: seq<string>, answers: seq<bool>, self: string)
    requires |answers| == |addrs| > 0
    ensures var n := |addrs| - 1;
      Unconnected(addrs, answers, self) ==
      Unconnected(addrs[..n], answers[..n], self)
      + (if addrs[n] != self && !answers[n] then [addrs[n]] else [])
    decreases |addrs|
  {
    var n := |addrs| - 1;
    if n > 0 {
      UnconnectedSnoc(addrs[1..], answers[1..], self);
      assert addrs[1..][..n - 1] == addrs[..n][1..];
      assert answers[1..][..n - 1] == answers[..n][1..];
    }
  }

  /** The PEERLIST branch connects to exactly the listed addresses, in list
      order and with repetitions, that differ from this node's listen address
      and that the server does not report as connected. */
  lemma {:induction false} GossipDialsUnconnected(addrs: seq<string>, answers: seq<bool>, self: string)
    requires |answers| == |addrs|
    ensures Dials(GossipCalls(addrs, answers, self)) == Unconnected(addrs, answers, self)
    decreases |addrs|
  {
    if addrs != [] {
      var n := |addrs| - 1;
      GossipDialsUnconnected(addrs[..n], answers[..n], self);
      DialsAppend(GossipCalls(addrs[..n], answers[..n], self), CallsFor(addrs[n], answers[n], self));
      UnconnectedSnoc(addrs, answers, self);
      var calls := CallsFor(addrs[n], answers[n], self);
      if addrs[n] != self {
        assert calls[1..] == (if answers[n] then [] else [ConnectTo(addrs[n])]);
        assert Dials(calls) == Dials(calls[1..]);
      }
      assert Dials(calls) == (if addrs[n] != self && !answers[n] then [addrs[n]] else []);
    }
  }

  /** An address is dialled exactly when it appears somewhere in the list, is
      not this node's own listen address, and the server answered "not
      connected" for that occurrence. */
  lemma {:induction false} UnconnectedMembers(addrs: seq<string>, answers: seq<bool>, self: string, k: string)
    requires |answers| == |addrs|
    ensures k in Unconnected(addrs, answers, self) <==>
      exists i :: 0 <= i < |addrs| && addrs[i] == k && k != self && !answers[i]
    decreases |addrs|
  {
    if addrs != [] {
      UnconnectedMembers(addrs[1..], answers[1..], self, k);
      if k in Unconnected(addrs[1..], answers[1..], self) {
        var i :| 0 <= i < |addrs| - 1 && addrs[1..][i] == k && k != self && !answers[1..][i];
        assert addrs[i + 1] == k && !answers[i + 1];
      }
      if exists i :: 0 <= i < |addrs| && addrs[i] == k && k != self && !answers[i] {
        var i :| 0 <= i < |addrs| && addrs[i] == k && k != self && !answers[i];
        if i > 0 {
          assert addrs[1..][i - 1] == k && !answers[1..][i - 1];
        }
      }
    }
  }

  /** A peer list never makes a node query or dial its own listen address. */
  lemma {:induction false} NeverDialsSelf(addrs: seq<string>, answers: seq<bool>, self: string)
    requires |answers| == |addrs|
    ensures ConnectTo(self) !in GossipCalls(addrs, answers, self)
    ensures IsConnectedTo(self) !in GossipCalls(addrs, answers, self)
    decreases |addrs|
  {
    if addrs != [] {
      var n := |addrs| - 1;
      NeverDialsSelf(addrs[..n], answers[..n], self);
    }
  }
}
