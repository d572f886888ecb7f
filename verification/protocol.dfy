/**
 * The wire vocabulary the peer engine speaks: packet identifiers, commands,
 * the payload shapes each command carries, and the calls a peer makes on its
 * server and on the network, recorded as events.
 *
 * The packet codec itself (packets/packet.go and the gob encoding) is not part
 * of this model; the payload, an untyped interface in the source, is a tagged
 * union here.
 */
module Protocol {

  /** A packet's 128-bit identifier (a 16-byte array in the source). */
  type PacketId = n: nat | n < 0x1_0000_0000_0000_0000_0000_0000_0000_0000

  /** The all-zero identifier: the RequestID of a packet that answers nothing. */
  const NO_REQUEST: PacketId := 0

  /** A node identifier of the consistent-hash ring. */
  type NodeId = nat

  type Bytes = seq<bv8>

  /** A cluster member's descriptor: its ring identifier and the address it listens on. */
  datatype NetworkNode = NetworkNode(id: NodeId, hostAddr: string)

  /**
   * Packet commands. PEERLIST is command 3; every code the dispatcher does not
   * know is one Unrecognised command (its value plays no part in the model).
   */
  datatype Command =
    | Heartbeat
    | Distribution
    | Peerlist
    | KVStore
    | KVStoreAck
    | KVStoreNotFound
    | Unrecognised

  /** Sub-commands of a key-value request; every other code is KVUnrecognised. */
  datatype KVCommand = KVSet | KVGet | KVDelete | KVUnrecognised

  /** The key-value sub-payload; `expiresAt` is in integer seconds. */
  datatype KVStorePacket = KVStorePacket(command: KVCommand, key: string, data: Bytes, flags: nat, expiresAt: int)

  /** The shapes a payload takes. */
  datatype Payload =
    | NoPayload
    | Node(node: NetworkNode)
    | Addresses(addrs: seq<string>)
    | KV(kv: KVStorePacket)
    | Key(key: string)

  /** A packet: its command, its own id, the id of the request it answers, its payload. */
  datatype Packet = Packet(command: Command, id: PacketId, requestId: PacketId, payload: Payload)

  /** A packet that answers nothing; `id` stands for the fresh random id the source draws. */
  function NewPacket(command: Command, id: PacketId, payload: Payload): Packet
  {
    Packet(command, id, NO_REQUEST, payload)
  }

  /** A reply to the request whose id is `requestId`. */
  function NewResponsePacket(command: Command, id: PacketId, requestId: PacketId, payload: Payload): Packet
  {
    Packet(command, id, requestId, payload)
  }

  /** What a peer does to the outside world, in the order it does it. */
  datatype Event =
    | Sent(packet: Packet)              // SendPacket: one encoded packet written to the peer
    | Delivered(reply: Packet)          // a reply handed to the caller waiting for it
    | RegisterNode(node: NetworkNode)   // the ring's RegisterNode
    | NotifyNewPeer(peerAddr: string)   // the server's NotifyNewPeer, for the peer at that address
    | IsConnectedTo(addr: string)       // the server's IsConnectedTo query
    | ConnectTo(addr: string)           // the server's ConnectTo: dial a new peer

}
