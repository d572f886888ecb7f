/**
 * How a peer serves a key-value request from another node: the effect of the
 * request on the local store and the reply packet chosen for it. The storage
 * engine is an abstract map from key to stored entry; its expiry, eviction and
 * persistence are not part of this model.
 */
module KVReplies {
  import opened Wrappers
  import opened Protocol

  datatype StoredValue = StoredValue(data: Bytes, flags: nat, expiresAt: int)

  type Store = map<string, StoredValue>

  /** The store after serving `kv`: Set writes the key, Delete removes it, and
      no other key is touched. */
  function StoreAfter(store: Store, kv: KVStorePacket): (s: Store)
    ensures forall k :: k != kv.key ==> (k in s <==> k in store)
    ensures forall k :: k != kv.key && k in s ==> s[k] == store[k]
    ensures kv.command.KVSet? ==> kv.key in s && s[kv.key] == StoredValue(kv.data, kv.flags, kv.expiresAt)
    ensures kv.command.KVDelete? ==> kv.key !in s
    ensures !kv.command.KVSet? && !kv.command.KVDelete? ==> s == store
  {
    match kv.command
    case KVSet => store[kv.key := StoredValue(kv.data, kv.flags, kv.expiresAt)]
    case KVDelete => store - {kv.key}
    case _ => store
  }

  /** The reply to the request `requestId` carrying `kv`, served from `store`
      (the store before the request); `replyId` is the reply's own fresh id. */
  function Reply(kv: KVStorePacket, store: Store, requestId: PacketId, replyId: PacketId): (r: Option<Packet>)
    // Every known sub-command is answered, an unknown one is not.
    ensures r.None? <==> kv.command.KVUnrecognised?
    // Every reply answers the request it serves.
    ensures r.Some? ==> r.value.id == replyId && r.value.requestId == requestId
    // ACK when the write happened or the key was found, NOT_FOUND otherwise.
    ensures r.Some? ==> (r.value.command == KVStoreAck <==> kv.command.KVSet? || kv.key in store)
    ensures r.Some? ==> r.value.command == KVStoreAck || r.value.command == KVStoreNotFound
    // Every reply but a successful Get echoes the key.
    ensures r.Some? && !(kv.command.KVGet? && kv.key in store) ==> r.value.payload == Key(kv.key)
    // A successful Get carries the stored data and flags under the key.
    ensures r.Some? && kv.command.KVGet? && kv.key in store ==>
      r.value.payload == KV(KVStorePacket(KVGet, kv.key, store[kv.key].data, store[kv.key].flags, 0))
  {
    match kv.command
    case KVSet =>
      Some(NewResponsePacket(KVStoreAck, replyId, requestId, Key(kv.key)))
    case KVGet =>
      if kv.key in store then
        var v := store[kv.key];
        Some(NewResponsePacket(KVStoreAck, replyId, requestId, KV(KVStorePacket(KVGet, kv.key, v.data, v.flags, 0))))
      else
        Some(NewResponsePacket(KVStoreNotFound, replyId, requestId, Key(kv.key)))
    case KVDelete =>
      if kv.key in store then Some(NewResponsePacket(KVStoreAck, replyId, requestId, Key(kv.key)))
      else Some(NewResponsePacket(KVStoreNotFound, replyId, requestId, Key(kv.key)))
    case KVUnrecognised => None
  }

  /** A Set followed by a Get of the same key: the Get is acknowledged with
      the data and flags the Set wrote. */
  lemma SetThenGet(store: Store, key: string, data: Bytes, flags: nat, expiresAt: int, getFlags: nat,
                   id1: PacketId, id2: PacketId, r1: PacketId, r2: PacketId)
    ensures var write := KVStorePacket(KVSet, key, data, flags, expiresAt);
      var read := KVStorePacket(KVGet, key, [], getFlags, 0);
      && Reply(write, store, id1, r1) == Some(Packet(KVStoreAck, r1, id1, Key(key)))
      && Reply(read, StoreAfter(store, write), id2, r2) ==
         Some(Packet(KVStoreAck, r2, id2, KV(KVStorePacket(KVGet, key, data, flags, 0))))
  {
  }

  /** A Get or a Delete of a key the store does not hold is answered
      NOT_FOUND echoing the key, and leaves the store as it was. */
  lemma MissingKeyNotFound(store: Store, kv: KVStorePacket, requestId: PacketId, replyId: PacketId)
    requires kv.command.KVGet? || kv.command.KVDelete?
    requires kv.key !in store
    ensures Reply(kv, store, requestId, replyId) == Some(Packet(KVStoreNotFound, replyId, requestId, Key(kv.key)))
    ensures StoreAfter(store, kv) == store
  {
  }

  /** After a Delete, a Get of the same key is answered NOT_FOUND. */
  lemma DeleteThenGet(store: Store, key: string, del: KVStorePacket, requestId: PacketId, replyId: PacketId)
    requires del.command.KVDelete? && del.key == key
    ensures var read := KVStorePacket(KVGet, key, [], 0, 0);
      Reply(read, StoreAfter(store, del), requestId, replyId) == Some(Packet(KVStoreNotFound, replyId, requestId, Key(key)))
  {
  }
}
