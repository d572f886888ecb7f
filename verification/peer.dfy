/**
 * The per-connection peer engine: a Peer object and the parts of its server
 * that it reads and updates (the registry of connected peers by node id, the
 * local key-value store, and the calls it makes, recorded as events).
 *
 * TLS dialing and handshakes, the packet encoder and decoder, goroutines,
 * timers and channels are left out: their outcomes (a dial or handshake that
 * fails, a write that fails, a decode error) are inputs, one tick of the
 * heartbeat loop and one received packet are each one method call, and the
 * current time is an integer number of seconds.
 */
module Peers {
  import opened Wrappers
  import opened Protocol
  import opened FailureDetector
  import Correlator
  import Gossip
  import KVReplies

  /** Whether a loop goes on after one iteration, ends, or the program panics
      (a nil dereference or a failed type assertion in the source). */
  datatype Flow = Continue | Stop | Crash

  datatype PeerError = DialFailed | NoCertificates | NotReady | HandshakeFailed

  /** What one read of the packet decoder yields. */
  datatype Frame = Decoded(packet: Packet) | DecodeError

  /** The registry after Disconnect deletes the entry keyed by the descriptor's
      node id, whichever peer that entry holds; without a descriptor nothing is
      deleted (the source panics before it gets there). */
  function Unregistered(conns: map<NodeId, Peer>, node: Option<NetworkNode>): (r: map<NodeId, Peer>)
    ensures node.Some? ==> node.value.id !in r
    ensures forall k :: (node.None? || k != node.value.id) ==> (k in r <==> k in conns)
    ensures forall k :: k in r ==> r[k] == conns[k]
  {
    if node.Some? then conns - {node.value.id} else conns
  }

  /** `order` lists the elements of `s`, each exactly once. */
  ghost predicate Enumerates<T>(order: seq<T>, s: set<T>)
  {
    && (forall i, j :: 0 <= i < j < |order| ==> order[i] != order[j])
    && (forall i :: 0 <= i < |order| ==> order[i] in s)
    && (forall x :: x in s ==> x in order)
  }

  class Server {
    /** The registry of connected peers, by node id. */
    var connections: map<NodeId, Peer>
    /** The local key-value store. */
    var store: KVReplies.Store
    /** Every call made on the network or on collaborators, in order. */
    var events: seq<Event>
    /** This node's id on the ring: the id of its own descriptor. */
    const nodeId: NodeId
    /** This node's own descriptor, announced by DISTRIBUTION. */
    const descriptor: NetworkNode
    /** The address this node listens on. */
    const listenAddr: string

    /** Both the id and the descriptor come from the one ServerNode of the source. */
    constructor (descriptor: NetworkNode, listenAddr: string)
      ensures nodeId == descriptor.id && this.descriptor == descriptor && this.listenAddr == listenAddr
      ensures connections == map[] && store == map[] && events == []
    {
      this.nodeId := descriptor.id;
      this.descriptor := descriptor;
      this.listenAddr := listenAddr;
      connections := map[];
      store := map[];
      events := [];
    }

    /** The registry entry `k` is advertised in a peer list: its peer has a
        descriptor and that descriptor is not this node's. */
    ghost predicate Advertises(k: NodeId)
      reads `connections, connections.Values`node
    {
      k in connections && connections[k].node.Some? && connections[k].node.value.id != nodeId
    }

    ghost function Advertised(): set<NodeId>
      reads `connections, connections.Values`node
    {
      set k | k in connections && Advertises(k)
    }

    /** The host address of the peer registered under `k`. */
    ghost function Host(k: NodeId): string
      reads `connections, connections.Values`node
    {
      if k in connections && connections[k].node.Some? then connections[k].node.value.hostAddr else ""
    }

    ghost function HostsOf(order: seq<NodeId>): seq<string>
      reads `connections, connections.Values`node
      decreases |order|
    {
      if order == [] then [] else HostsOf(order[..|order| - 1]) + [Host(order[|order| - 1])]
    }

    /** `hosts` is a peer list of this node: the host addresses of the
        advertised registry entries, each once, in some order (the registry is
        a map whose iteration order is unspecified). */
    ghost predicate IsPeerlist(hosts: seq<string>)
      reads `connections, connections.Values`node
    {
      exists order :: Enumerates(order, Advertised()) && hosts == HostsOf(order)
    }
  }

  class Peer {
    const server: Server
    const address: string
    var state: PeerState
    /** When the last heartbeat was received, in seconds. */
    var lastHeartbeat: int
    /** The descriptor the remote node announced, once it has. */
    var node: Option<NetworkNode>
    /** The ids of the requests waiting for a reply. */
    var replies: set<PacketId>
    var connectionOpen: bool
    var tickerRunning: bool

    /** NewPeer: a peer to dial at `address`, not yet connected. */
    constructor NewPeer(server: Server, address: string, now: int)
      ensures this.server == server && this.address == address
      ensures state == Disconnected && lastHeartbeat == now && node == None && replies == {}
      ensures !connectionOpen && !tickerRunning
    {
      this.server := server;
      this.address := address;
      state := Disconnected;
      lastHeartbeat := now;
      node := None;
      replies := {};
      connectionOpen := false;
      tickerRunning := false;
    }

    /** NewConnectingPeer: a peer for an accepted connection from `remoteAddr`,
        waiting for its handshake. */
    constructor NewConnectingPeer(server: Server, remoteAddr: string, now: int)
      ensures this.server == server && this.address == remoteAddr
      ensures state == Handshake && lastHeartbeat == now && node == None && replies == {}
      ensures connectionOpen && !tickerRunning
    {
      this.server := server;
      this.address := remoteAddr;
      state := Handshake;
      lastHeartbeat := now;
      node := None;
      replies := {};
      connectionOpen := true;
      tickerRunning := false;
    }

    /** The peer and the registry after Disconnect, given their values before it. */
    ghost predicate DisconnectedFrom(s0: PeerState, node0: Option<NetworkNode>, conns0: map<NodeId, Peer>,
                                     open0: bool, ticker0: bool)
      reads this, server`connections
    {
      && state == AfterDisconnect(s0)
      && node == node0
      && server.connections == (if s0 == Connected then Unregistered(conns0, node0) else conns0)
      && connectionOpen == (open0 && s0 != Connected)
      && tickerRunning == (ticker0 && s0 != Connected)
    }

    /** Disconnect: acts only on a Connected peer, which it marks Disconnected,
        closes and unregisters; in any other state it changes nothing. */
    method Disconnect() returns (panicked: bool)
      modifies this, server`connections
      ensures DisconnectedFrom(old(state), old(node), old(server.connections), old(connectionOpen), old(tickerRunning))
      ensures panicked <==> old(state) == Connected && old(node).None?
      ensures lastHeartbeat == old(lastHeartbeat) && replies == old(replies)
    {
      panicked := false;
      if state == Connected {
        state := Disconnected;
        connectionOpen := false;
        tickerRunning := false;
        if node.None? {
          // the descriptor is dereferenced unguarded
          panicked := true;
          return;
        }
        server.connections := server.connections - {node.value.id};
      }
    }

    /** A second Disconnect after a first one is a no-op: the registry loses at
        most the one entry. */
    method DisconnectTwice() returns (first: bool, second: bool)
      modifies this, server`connections
      ensures server.connections == (if old(state) == Connected then Unregistered(old(server.connections), old(node)) else old(server.connections))
      ensures state == AfterDisconnect(old(state))
      ensures !second
    {
      first := Disconnect();
      second := Disconnect();
    }

    /** Connect: dials the peer's address; the outcomes of the dial and of the
        certificate check are inputs. A failure leaves the peer Connecting, as
        the Disconnect called on that path does nothing outside Connected. */
    method Connect(dialOk: bool, peerHasCerts: bool) returns (err: Option<PeerError>)
      modifies this, server`connections
      ensures err == (if !dialOk then Some(DialFailed) else if !peerHasCerts then Some(NoCertificates) else None)
      ensures state == (if err.None? then Handshake else Connecting)
      ensures connectionOpen == (dialOk || old(connectionOpen))
      ensures tickerRunning == old(tickerRunning) && lastHeartbeat == old(lastHeartbeat)
      ensures node == old(node) && replies == old(replies)
      ensures server.connections == old(server.connections)
    {
      state := Connecting;
      if !dialOk {
        var panicked := Disconnect();
        return Some(DialFailed);
      }
      connectionOpen := true;
      if !peerHasCerts {
        var panicked := Disconnect();
        return Some(NoCertificates);
      }
      state := Handshake;
      return None;
    }

    /** SendPacket: the packet is written to the peer. */
    method SendPacket(p: Packet)
      modifies server`events
      ensures server.events == old(server.events) + [Sent(p)]
    {
      server.events := server.events + [Sent(p)];
    }

    /** Start: only a peer in Handshake can start. After a successful handshake
        with at least one peer certificate it is Connected, its heartbeat timer
        runs, and it has sent this node's descriptor and then a peer list. A
        failed handshake leaves the state as it was, since the Disconnect on
        that path does nothing outside Connected. */
    method Start(handshakeOk: bool, peerHasCerts: bool, distId: PacketId, listId: PacketId)
      returns (err: Option<PeerError>)
      modifies this, server`connections, server`events
      ensures err == (if old(state) != Handshake then Some(NotReady)
                      else if !handshakeOk then Some(HandshakeFailed)
                      else if !peerHasCerts then Some(NoCertificates)
                      else None)
      ensures err.Some? ==> state == old(state) && tickerRunning == old(tickerRunning)
                            && server.events == old(server.events)
      ensures err.None? ==> state == Connected && tickerRunning
      ensures err.None? ==> exists hosts :: (server.IsPeerlist(hosts) &&
        server.events == old(server.events) + [Sent(NewPacket(Distribution, distId, Node(server.descriptor))),
                                               Sent(NewPacket(Peerlist, listId, Addresses(hosts)))])
      ensures server.connections == old(server.connections)
      ensures lastHeartbeat == old(lastHeartbeat) && node == old(node) && replies == old(replies)
      ensures connectionOpen == old(connectionOpen)
    {
      if state != Handshake {
        return Some(NotReady);
      }
      if !handshakeOk {
        var panicked := Disconnect();
        return Some(HandshakeFailed);
      }
      if !peerHasCerts {
        var panicked := Disconnect();
        return Some(NoCertificates);
      }
      state := Connected;
      tickerRunning := true;
      SendDistribution(distId);
      SendPeerlist(listId);
      return None;
    }

    /** SendDistribution: announces this node's own descriptor. */
    method SendDistribution(id: PacketId)
      modifies server`events
      ensures server.events == old(server.events) + [Sent(NewPacket(Distribution, id, Node(server.descriptor)))]
    {
      SendPacket(NewPacket(Distribution, id, Node(server.descriptor)));
    }

    /** The peer list sent to the remote node: the host address of every
        registered peer that has a descriptor other than this node's. */
    method CollectPeerlist() returns (hosts: seq<string>)
      ensures server.IsPeerlist(hosts)
    {
      hosts := [];
      ghost var order: seq<NodeId> := [];
      var remaining := server.connections.Keys;
      while remaining != {}
        invariant remaining <= server.connections.Keys
        invariant forall i, j :: 0 <= i < j < |order| ==> order[i] != order[j]
        invariant forall i :: 0 <= i < |order| ==> order[i] in server.Advertised() && order[i] !in remaining
        invariant forall k :: k in server.Advertised() ==> k in order || k in remaining
        invariant hosts == server.HostsOf(order)
        decreases remaining
      {
        var k :| k in remaining;
        var peer := server.connections[k];
        if peer.node.Some? && peer.node.value.id != server.nodeId {
          ghost var prev := order;
          hosts := hosts + [peer.node.value.hostAddr];
          order := order + [k];
          assert order[..|order| - 1] == prev;
        }
        remaining := remaining - {k};
      }
      assert Enumerates(order, server.Advertised());
    }

    /** SendPeerlist: sends the peer list of this node. */
    method SendPeerlist(id: PacketId)
      modifies server`events
      ensures exists hosts :: (server.IsPeerlist(hosts) &&
        server.events == old(server.events) + [Sent(NewPacket(Peerlist, id, Addresses(hosts)))])
    {
      var hosts := CollectPeerlist();
      SendPacket(NewPacket(Peerlist, id, Addresses(hosts)));
    }

    /** One iteration of the heartbeat loop at time `now`; `sendFails` is the
        outcome of the heartbeat write and `id` the heartbeat's packet id. The
        state follows FailureDetector.Tick; the Disconnect on the Defib path
        finds the peer Defib and so does nothing. */
    method HeartbeatTick(now: int, sendFails: bool, id: PacketId) returns (flow: Flow)
      modifies this, server`connections, server`events
      ensures var r := Tick(old(state), old(lastHeartbeat), now, sendFails);
        && state == r.state
        && server.events == old(server.events) + (if r.heartbeatSent then [Sent(NewPacket(Heartbeat, id, NoPayload))] else [])
        && server.connections == (if r.dropped then Unregistered(old(server.connections), old(node)) else old(server.connections))
        && connectionOpen == (old(connectionOpen) && !r.dropped)
        && tickerRunning == (old(tickerRunning) && !r.dropped)
        && flow == (if !r.loopEnds then Continue else if r.dropped && old(node).None? then Crash else Stop)
      ensures lastHeartbeat == old(lastHeartbeat) && node == old(node) && replies == old(replies)
    {
      if now > lastHeartbeat + DEFIB_SILENCE {
        state := Defib;
      }
      if state == Connected {
        SendPacket(NewPacket(Heartbeat, id, NoPayload));
        if sendFails {
          var panicked := Disconnect();
          return if panicked then Crash else Stop;
        }
      } else if state == Defib {
        if now > lastHeartbeat + DEAD_SILENCE {
          var panicked := Disconnect();
          return if panicked then Crash else Stop;
        }
      }
      return Continue;
    }

    /** The DISTRIBUTION branch: the announced descriptor becomes this peer's,
        the registry maps its id to this peer, and the node is registered on the
        ring and reported to the server. A payload of another shape fails the
        type assertion. */
    method ReceiveDistribution(p: Packet) returns (flow: Flow)
      modifies this`node, server`connections, server`events
      ensures !p.payload.Node? ==>
        && flow == Crash && node == old(node)
        && server.connections == old(server.connections) && server.events == old(server.events)
      ensures p.payload.Node? ==>
        && flow == Continue && node == Some(p.payload.node)
        && server.connections == old(server.connections)[p.payload.node.id := this]
        && server.events == old(server.events) + [RegisterNode(p.payload.node), NotifyNewPeer(address)]
    {
      if !p.payload.Node? {
        return Crash;
      }
      var n := p.payload.node;
      node := Some(n);
      server.connections := server.connections[n.id := this];
      server.events := server.events + [RegisterNode(n)];
      server.events := server.events + [NotifyNewPeer(address)];
      return Continue;
    }

    /** The PEERLIST branch; `answers[i]` is what the server's IsConnectedTo
        says for the i-th listed address. A payload of another shape fails the
        type assertion. */
    method ReceivePeerlist(p: Packet, answers: seq<bool>) returns (flow: Flow)
      requires p.payload.Addresses? ==> |answers| == |p.payload.addrs|
      modifies server`events
      ensures !p.payload.Addresses? ==> flow == Crash && server.events == old(server.events)
      ensures p.payload.Addresses? ==>
        && flow == Continue
        && server.events == old(server.events) + Gossip.GossipCalls(p.payload.addrs, answers, server.listenAddr)
    {
      if !p.payload.Addresses? {
        return Crash;
      }
      var addrs := p.payload.addrs;
      for i := 0 to |addrs|
        invariant server.events == old(server.events) + Gossip.GossipCalls(addrs[..i], answers[..i], server.listenAddr)
      {
        var k := addrs[i];
        if k != server.listenAddr {
          server.events := server.events + [IsConnectedTo(k)];
          if !answers[i] {
            server.events := server.events + [ConnectTo(k)];
          }
        }
        assert addrs[..i + 1][..i] == addrs[..i] && answers[..i + 1][..i] == answers[..i];
      }
      assert addrs[..|addrs|] == addrs && answers[..|addrs|] == answers;
      return Continue;
    }

    /** handleReply: a reply to a waiting request is removed from the waiting
        set and delivered; any other reply is dropped. */
    method HandleReply(p: Packet)
      modifies this`replies, server`events
      ensures var r := Correlator.Route(old(replies), p);
        replies == r.pending && server.events == old(server.events) + (if r.delivered.Some? then [Delivered(p)] else [])
    {
      if p.requestId in replies {
        replies := replies - {p.requestId};
        server.events := server.events + [Delivered(p)];
      }
    }

    /** SendPacketWaitReply, up to the blocking wait: the request's own id is
        registered as waiting before the request is sent. */
    method SendPacketWaitReply(p: Packet)
      modifies this`replies, server`events
      ensures replies == Correlator.Expect(old(replies), p)
      ensures server.events == old(server.events) + [Sent(p)]
    {
      replies := replies + {p.id};
      SendPacket(p);
    }

    /** handleKVStoreSet: stores the value, whatever the sub-command says, and
        acknowledges echoing the key. */
    method HandleKVStoreSet(kv: KVStorePacket, request: Packet, replyId: PacketId)
      modifies server`store, server`events
      ensures server.store == KVReplies.StoreAfter(old(server.store), kv.(command := KVSet))
      ensures server.events == old(server.events) + [Sent(KVReplies.Reply(kv.(command := KVSet), old(server.store), request.id, replyId).value)]
    {
      server.store := server.store[kv.key := KVReplies.StoredValue(kv.data, kv.flags, kv.expiresAt)];
      SendPacket(NewResponsePacket(KVStoreAck, replyId, request.id, Key(kv.key)));
    }

    /** handleKVStoreGet: looks the key up and replies with the entry or NOT_FOUND. */
    method HandleKVStoreGet(kv: KVStorePacket, request: Packet, replyId: PacketId)
      modifies server`events
      ensures server.events == old(server.events) + [Sent(KVReplies.Reply(kv.(command := KVGet), server.store, request.id, replyId).value)]
    {
      var response;
      if kv.key in server.store {
        var v := server.store[kv.key];
        response := NewResponsePacket(KVStoreAck, replyId, request.id, KV(KVStorePacket(KVGet, kv.key, v.data, v.flags, 0)));
      } else {
        response := NewResponsePacket(KVStoreNotFound, replyId, request.id, Key(kv.key));
      }
      SendPacket(response);
    }

    /** handleKVStoreDelete: deletes the key and replies ACK if it was there,
        NOT_FOUND otherwise, echoing the key. */
    method HandleKVStoreDelete(kv: KVStorePacket, request: Packet, replyId: PacketId)
      modifies server`store, server`events
      ensures server.store == KVReplies.StoreAfter(old(server.store), kv.(command := KVDelete))
      ensures server.events == old(server.events) + [Sent(KVReplies.Reply(kv.(command := KVDelete), old(server.store), request.id, replyId).value)]
    {
      var found := kv.key in server.store;
      server.store := server.store - {kv.key};
      var response;
      if found {
        response := NewResponsePacket(KVStoreAck, replyId, request.id, Key(kv.key));
      } else {
        response := NewResponsePacket(KVStoreNotFound, replyId, request.id, Key(kv.key));
      }
      SendPacket(response);
    }

    /** handleKVStorePacket: serves the request by its sub-command; an unknown
        sub-command is not answered, and a payload of another shape fails the
        type assertion. */
    method HandleKVStorePacket(request: Packet, replyId: PacketId) returns (flow: Flow)
      modifies server`store, server`events
      ensures !request.payload.KV? ==>
        && flow == Crash
        && server.store == old(server.store) && server.events == old(server.events)
      ensures request.payload.KV? ==>
        && flow == Continue
        && var kv := request.payload.kv;
           var reply := KVReplies.Reply(kv, old(server.store), request.id, replyId);
           && server.store == KVReplies.StoreAfter(old(server.store), kv)
           && server.events == old(server.events) + (if reply.Some? then [Sent(reply.value)] else [])
    {
      if !request.payload.KV? {
        return Crash;
      }
      var kv := request.payload.kv;
      match kv.command {
        case KVSet => HandleKVStoreSet(kv, request, replyId);
        case KVGet => HandleKVStoreGet(kv, request, replyId);
        case KVDelete => HandleKVStoreDelete(kv, request, replyId);
        case KVUnrecognised =>
      }
      return Continue;
    }

    /** One iteration of the receive loop. A decode error ends the loop with a
        Disconnect; otherwise the packet is dispatched on its command and the
        loop goes on, unknown commands being ignored. `now` is the time of
        receipt, `answers` the server's IsConnectedTo answers for a peer list,
        and `replyId` the id of a key-value reply. */
    method Process(frame: Frame, now: int, answers: seq<bool>, replyId: PacketId) returns (flow: Flow)
      requires frame.Decoded? && frame.packet.command == Peerlist && frame.packet.payload.Addresses? ==>
        |answers| == |frame.packet.payload.addrs|
      modifies this, server
      ensures frame.DecodeError? ==>
        && DisconnectedFrom(old(state), old(node), old(server.connections), old(connectionOpen), old(tickerRunning))
        && flow == (if old(state) == Connected && old(node).None? then Crash else Stop)
        && lastHeartbeat == old(lastHeartbeat) && replies == old(replies)
        && server.store == old(server.store) && server.events == old(server.events)
      // No received packet changes the peer's state: a heartbeat does not bring a Defib peer back.
      ensures frame.Decoded? ==> state == old(state) && connectionOpen == old(connectionOpen) && tickerRunning == old(tickerRunning)
      ensures frame.Decoded? && frame.packet.command == Heartbeat ==>
        && flow == Continue && lastHeartbeat == now
        && node == old(node) && replies == old(replies) && unchanged(server)
      ensures frame.Decoded? && frame.packet.command == Distribution ==>
        var p := frame.packet;
        && lastHeartbeat == old(lastHeartbeat) && replies == old(replies) && server.store == old(server.store)
        && (!p.payload.Node? ==> flow == Crash && node == old(node) && unchanged(server))
        && (p.payload.Node? ==>
             && flow == Continue && node == Some(p.payload.node)
             && server.connections == old(server.connections)[p.payload.node.id := this]
             && server.events == old(server.events) + [RegisterNode(p.payload.node), NotifyNewPeer(address)])
      ensures frame.Decoded? && frame.packet.command == Peerlist ==>
        var p := frame.packet;
        && lastHeartbeat == old(lastHeartbeat) && node == old(node) && replies == old(replies)
        && server.connections == old(server.connections) && server.store == old(server.store)
        && (!p.payload.Addresses? ==> flow == Crash && server.events == old(server.events))
        && (p.payload.Addresses? ==>
             && flow == Continue
             && server.events == old(server.events) + Gossip.GossipCalls(p.payload.addrs, answers, server.listenAddr))
      ensures frame.Decoded? && frame.packet.command == KVStore ==>
        var p := frame.packet;
        && lastHeartbeat == old(lastHeartbeat) && node == old(node) && replies == old(replies)
        && server.connections == old(server.connections)
        && (!p.payload.KV? ==> flow == Crash && unchanged(server))
        && (p.payload.KV? ==>
             && flow == Continue
             && var reply := KVReplies.Reply(p.payload.kv, old(server.store), p.id, replyId);
                && server.store == KVReplies.StoreAfter(old(server.store), p.payload.kv)
                && server.events == old(server.events) + (if reply.Some? then [Sent(reply.value)] else []))
      ensures frame.Decoded? && (frame.packet.command == KVStoreAck || frame.packet.command == KVStoreNotFound) ==>
        var r := Correlator.Route(old(replies), frame.packet);
        && flow == Continue && replies == r.pending
        && server.events == old(server.events) + (if r.delivered.Some? then [Delivered(frame.packet)] else [])
        && lastHeartbeat == old(lastHeartbeat) && node == old(node)
        && server.connections == old(server.connections) && server.store == old(server.store)
      ensures frame.Decoded? && frame.packet.command.Unrecognised? ==>
        flow == Continue && unchanged(this) && unchanged(server)
    {
      match frame
      case DecodeError =>
        var panicked := Disconnect();
        return if panicked then Crash else Stop;
      case Decoded(p) =>
        match p.command
        case Heartbeat =>
          lastHeartbeat := now;
          flow := Continue;
        case Distribution =>
          flow := ReceiveDistribution(p);
        case KVStore =>
          flow := HandleKVStorePacket(p, replyId);
        case KVStoreAck =>
          HandleReply(p);
          flow := Continue;
        case KVStoreNotFound =>
          HandleReply(p);
          flow := Continue;
        case Peerlist =>
          flow := ReceivePeerlist(p, answers);
        case Unrecognised =>
          flow := Continue;
    }
  }
}
