# Trinity peer engine and SQL constant, modelled in Dafny

This project models two parts of the trinity clustered key-value store (Go).

The first is the per-connection peer engine of `network/peer.go`. A `Peer` goes
through its lifecycle states (Disconnected, Connecting, Handshake, Connected,
Defib). A once-per-second heartbeat loop demotes a silent peer to Defib and gives
it up after ten seconds. A receive loop dispatches each decoded packet:

- HEARTBEAT records the time.
- DISTRIBUTION stores the remote node's descriptor and registers the peer.
- PEERLIST gossip makes the server dial unknown addresses.
- KVSTORE requests are served from the local store and answered.
- KVSTORE_ACK and KVSTORE_NOT_FOUND replies go to the reply correlator.

The enclosing server's registry (node id → peer), its key-value store and every
call the peer makes are fields of a `Server` object. Those calls are sends,
deliveries to waiting callers, ring registration, new-peer notifications,
IsConnectedTo queries and ConnectTo dials. They are recorded in order as events.

The second is the SQL constant of `sql/constant.go` and its rendering as SQL text.

Modules:

- `Protocol` (protocol.dfy): packet ids, commands, payload shapes, packets and events.
- `FailureDetector` (failure_detector.dfy): the states, the Disconnect guard and one
  heartbeat tick as functions of an integer clock. It also has lemmas that follow a
  peer through any sequence of ticks, received heartbeats and stream ends.
- `Correlator` (correlator.dfy): the set of request ids waiting for a reply, and
  how replies are matched to it.
- `Gossip` (gossip.dfy): the server calls the PEERLIST branch makes.
- `KVReplies` (kv_replies.dfy): a key-value request's effect on the store, and the
  reply chosen for it.
- `Peers` (peer.dfy): the `Server` and `Peer` classes. Their methods change the
  fields in place and are proved against the functions above.
- `SqlConstant` (sql_constant.dfy): the constant and `ToSql`.
- `Wrappers` (wrappers.dfy): `Option`.

The model keeps the following behaviour of the code, which a reader might not expect:

- Disconnect acts only on a Connected peer. On the Defib path ("DOA") of the
  heartbeat loop it therefore does nothing. The loop ends, but the peer stays Defib,
  keeps its connection and stays registered.
- The failure paths of Start and Connect call Disconnect in the Handshake or
  Connecting state, so nothing is torn down. The state stays Handshake (Start) or
  Connecting (Connect).
- A Connected peer that never received a DISTRIBUTION has no descriptor. Disconnect
  then dereferences nil (network/peer.go:99) after it has already marked the peer
  Disconnected, closed it and stopped its timer. The model reports this as `Crash`;
  it is not a no-op.
- Both silence thresholds are strict: "more than 5 s" and "more than 10 s", not ≥.
- No tick, received packet or end of stream moves a peer out of Defib. A received
  heartbeat only updates `lastHeartbeat`; only an explicit Connect leaves Defib.
- Connect does not check the state it starts from.
- The `timeout` of SendPacketWaitReply is never used. Reply entries are removed only
  when the matching reply arrives.

## Model

| member | source | states |
|---|---|---|
| `FailureDetector.Escalate` | network/peer.go:144-148 | a tick makes the peer Defib exactly when more than 5 s have passed since the last heartbeat (or it already was Defib); otherwise the state is unchanged |
| `FailureDetector.AfterDisconnect` | network/peer.go:93-101 | Disconnect changes the state only of a Connected peer, which becomes Disconnected |
| `FailureDetector.Tick` | network/peer.go:141-166 | one heartbeat iteration: a heartbeat is sent iff the peer is Connected after the Defib check; only a failed heartbeat write disconnects; the loop ends on that failure or in Defib after more than 10 s of silence, and that DOA path leaves the peer Defib; in every other case the state is the one the Defib check left |
| `FailureDetector.DefibIsAbsorbing` | network/peer.go:145-163 | from Defib, no sequence of ticks, received heartbeats or stream ends leaves Defib, and no heartbeat is ever sent again |
| `FailureDetector.ConnectedStaysLive` | network/peer.go:93-101 | once Connected, a peer is only ever Connected, Defib or Disconnected after any sequence of ticks, heartbeats and stream ends |
| `FailureDetector.HealthyPeerStaysConnected` | network/peer.go:145-157 | a Connected peer whose ticks all come within 5 s of its last heartbeat and whose writes succeed stays Connected and sends one heartbeat per tick |
| `Correlator.Expect` | network/peer.go:265-267 | SendPacketWaitReply makes the request's own id pending and changes no other entry |
| `Correlator.Route` | network/peer.go:231-239 | a reply to a pending id removes exactly that id and is delivered; any other reply is dropped and the pending set is unchanged |
| `Correlator.WaiterGetsFirstAnswer` | network/peer.go:231-239 | over any sequence of replies, a waiter on id x receives exactly the first reply answering x, even after unrelated replies, and stays pending if none answers it; replies to ids nobody waits on are never delivered |
| `Gossip.GossipDialsUnconnected` | network/peer.go:207-221 | the PEERLIST branch asks the server to connect to exactly the listed addresses, in list order, that differ from the local listen address and that IsConnectedTo reports as not connected |
| `Gossip.UnconnectedMembers` | network/peer.go:210-216 | an address is dialled iff it occurs in the list, is not the local address, and IsConnectedTo said "not connected" for that occurrence |
| `Gossip.NeverDialsSelf` | network/peer.go:211-212 | the local listen address is never queried and never dialled |
| `KVReplies.StoreAfter` | network/peer.go:289-293 | Set writes the key with its data, flags and expiry; Delete removes it; Get and unknown sub-commands leave the store; no other key changes |
| `KVReplies.Reply` | network/peer.go:273-338 | every known sub-command is answered with the request's id; ACK iff Set or the key was found, otherwise NOT_FOUND; every reply but a found Get echoes the key; a found Get carries the stored data and flags |
| `KVReplies.SetThenGet` | network/peer.go:287-321 | a Set is acknowledged echoing the key, and a following Get of the key is acknowledged with the data and flags written |
| `KVReplies.MissingKeyNotFound` | network/peer.go:315-334 | a Get or Delete of an absent key is answered NOT_FOUND echoing the key and leaves the store unchanged |
| `KVReplies.DeleteThenGet` | network/peer.go:323-335 | after a Delete of a key, a Get of that key is answered NOT_FOUND |
| `Peers.Unregistered` | network/peer.go:99 | Disconnect deletes the registry entry keyed by the peer's node id, whichever peer it holds, and keeps every other entry |
| `Peers.Peer.NewPeer` | network/peer.go:50-61 | a new peer is Disconnected, has no descriptor and no pending replies, and its last heartbeat is the creation time |
| `Peers.Peer.NewConnectingPeer` | network/peer.go:63-68 | an accepted peer has its connection open and is in Handshake |
| `Peers.Peer.Disconnect` | network/peer.go:93-101 | outside Connected nothing changes; from Connected the peer becomes Disconnected, closed, with its timer stopped and its registry entry removed, and it panics iff it has no descriptor |
| `Peers.Peer.DisconnectTwice` | network/peer.go:93-101 | two Disconnect calls remove at most the one registry entry, and the second never panics |
| `Peers.Peer.Connect` | network/peer.go:70-90 | success ends in Handshake with the connection open; a failed dial or a peer without certificates returns the error and leaves the peer Connecting |
| `Peers.Peer.SendPacket` | network/peer.go:257-263 | the packet is appended to what has been sent |
| `Peers.Peer.Start` | network/peer.go:103-135 | outside Handshake: NotReady with nothing changed; a failed handshake or missing certificate returns its error and leaves the state; success ends Connected with the timer running, after sending this node's descriptor and then a peer list |
| `Peers.Peer.SendDistribution` | network/peer.go:251-255 | sends this node's own descriptor |
| `Peers.Peer.CollectPeerlist` | network/peer.go:242-245 | the peer list is the host addresses of exactly the registry entries whose peer has a descriptor other than the local node id, each once, in some order |
| `Peers.Peer.SendPeerlist` | network/peer.go:241-249 | sends one PEERLIST packet carrying such a peer list |
| `Peers.Peer.HeartbeatTick` | network/peer.go:141-166 | the state follows `Tick`; a heartbeat packet is sent iff `Tick` says so; only a failed write unregisters and closes the peer; the flow is Continue, Stop, or Crash when that Disconnect panics |
| `Peers.Peer.ReceiveDistribution` | network/peer.go:188-197 | stores the announced descriptor, maps its id to this peer in the registry, registers the node and notifies the server; a payload of another shape panics |
| `Peers.Peer.ReceivePeerlist` | network/peer.go:207-221 | makes exactly the calls of `Gossip.GossipCalls` for the list; a payload of another shape panics |
| `Peers.Peer.HandleReply` | network/peer.go:231-239 | updates the pending ids and the deliveries exactly as `Correlator.Route` |
| `Peers.Peer.SendPacketWaitReply` | network/peer.go:265-267 | registers the request's own id as pending before sending the request |
| `Peers.Peer.HandleKVStoreSet` | network/peer.go:287-298 | writes the entry and sends an ACK echoing the key, to the request's id |
| `Peers.Peer.HandleKVStoreGet` | network/peer.go:300-321 | sends the ACK with the stored data and flags, or NOT_FOUND echoing the key, to the request's id; the store is unchanged |
| `Peers.Peer.HandleKVStoreDelete` | network/peer.go:323-338 | removes the key and sends ACK if it was present, NOT_FOUND otherwise, echoing the key |
| `Peers.Peer.HandleKVStorePacket` | network/peer.go:273-285 | serves the request by its sub-command as `StoreAfter` and `Reply` say; an unknown sub-command is not answered; a non-KV payload panics |
| `Peers.Peer.Process` | network/peer.go:170-229 | one receive iteration: a decode error disconnects and ends the loop; no received packet changes the peer's state (a heartbeat does not revive a Defib peer); each command has the effect of its handler; unknown commands change nothing |
| `SqlConstant.Constant.ToSql` | sql/constant.go:12-27 | the output length is the value's length plus 2 for parentheses and 2 for VarChar quotes; the value appears verbatim at offset (wrap ? 1 : 0) + (VarChar ? 1 : 0); parentheses and quotes surround it; unwrapped, it is `"value"` for VarChar and the bare value otherwise |
| `SqlConstant.NewConstant` | sql/constant.go:29-34 | stores type and value unchanged |
| `SqlConstant.WrapIsParenthesised` | sql/constant.go:14-25 | the wrapped text is the unwrapped text in one pair of parentheses |
| `SqlConstant.ToSqlInjective` | sql/constant.go:17-22 | for a fixed type and wrapping, the text determines the value |
| `SqlConstant.QuotesAreNotEscaped` | sql/constant.go:18-19 | quotes are not escaped: a VarChar `a` and an unquoted `"a"` render alike |

## Left out

- TLS dialing, the handshake and the certificate checks: only their success or failure is modelled, as inputs to `Connect` and `Start`.
- The gob encoder and decoder: a send is an event, and a decode error is an input of `Process`. The untyped payload is a tagged union. A payload of the wrong shape is the source's failed type assertion, modelled as `Crash`.
- The receive loop reuses one packet variable, and `handleReply` hands out a pointer to it. That aliasing between a delivered reply and the next decoded packet is not modelled.
- Goroutines, the ticker and the blocking channel receive in SendPacketWaitReply: one tick and one received packet are each one method call. The reply that SendPacketWaitReply would return is the `Delivered` event. The unused `timeout` parameter is left out.
- Unsynchronised concurrent access to the peer's fields is not modelled, because every call here runs alone. One race this hides: SendPacketWaitReply looks its reply channel up again after the send (network/peer.go:268). If `handleReply` (network/peer.go:232-235) has already delivered and deleted the entry, the waiter blocks forever on a nil channel and the receive loop blocks on its send. `Correlator.WaiterGetsFirstAnswer` holds only when calls run one at a time.
- Time: `time.Time` is integer seconds. The two `time.Now()` reads of one heartbeat tick (network/peer.go:145 and 159) are one `now`, so a tick whose reads fall on either side of a threshold is not modelled.
- Logging, and the `PeerStateString` names, which are only used for logging.
- The error result of the ring's RegisterNode, which the source only logs: it is an event. NotifyNewPeer is recorded with the peer's address.
- The server's IsConnectedTo and ConnectTo are not part of this model. IsConnectedTo's answers are inputs, one per listed address, and ConnectTo is an event.
- The storage engine is an abstract map. Its expiry, eviction and persistence are not part of this model.
- packets/packet.go is not part of this model. It defines the packet struct, the command codes other than PEERLIST = 3 (packets/peerlist_packet.go:10), NewPacket and NewResponsePacket. The model assumes NewResponsePacket sets the RequestID it is given. Fresh random packet ids are inputs.
- The zero `ExpiresAt` of a Get reply is written as time 0.
- The error results of SendPacket on paths where the source ignores them: such a send is always recorded. Only the heartbeat write's failure is an input.
- `schema.SQLType` is not part of this model. Only VarChar renders differently, so every other type is `Other`.
