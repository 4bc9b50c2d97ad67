/** The Yellowstone stream messages, limited to the fields the proxy reads, and their dedup keys. */
module Geyser {
  import opened Prelude

  datatype Message = Message(accountKeys: seq<Bytes>)
  datatype Transaction = Transaction(message: Option<Message>)
  datatype TransactionMeta = TransactionMeta(
    failed: bool,
    loadedWritableAddresses: seq<Bytes>,
    loadedReadonlyAddresses: seq<Bytes>)
  datatype TransactionInfo = TransactionInfo(
    signature: Bytes,
    isVote: bool,
    transaction: Option<Transaction>,
    meta: Option<TransactionMeta>)

  datatype Payload =
    | TransactionUpdate(slot: nat, info: Option<TransactionInfo>, bankId: nat)
    | TransactionStatusUpdate(slot: nat, signature: Bytes)
    | SlotUpdate(slot: nat, parent: Option<nat>, status: int)
    | BlockMetaUpdate(slot: nat, blockhash: string, bankId: nat)
    | EntryUpdate(slot: nat, index: nat, hash: Bytes)
    | BlockFooterUpdate(slot: nat, bankHash: Bytes, certificates: bool)
    | AccountUpdate(slot: nat, pubkey: Bytes)
    | BlockUpdate(slot: nat)
    | EntryUpdateParent(slot: nat)
    | Ping
    | Pong(id: int)

  datatype SubscribeUpdate = SubscribeUpdate(filters: seq<string>, payload: Option<Payload>)

  predicate IsPong(u: SubscribeUpdate) {
    u.payload.Some? && u.payload.value.Pong?
  }

  datatype DedupKey =
    | TransactionKey(slot: nat, signature: Bytes)
    | TransactionStatusKey(slot: nat, signature: Bytes)
    | SlotKey(slot: nat, status: int)
    | BlockMetaKey(slot: nat, blockhash: string)
    | EntryKey(slot: nat, index: nat, hash: Bytes)
    | BlockFooterKey(slot: nat, bankHash: Bytes)

  /** The identity of an update across regions; None means the update is never deduplicated. */
  function ComputeDedupKey(u: SubscribeUpdate): (key: Option<DedupKey>)
    ensures IsPong(u) ==> key.None?
  {
    if u.payload.None? then None
    else match u.payload.value
      case TransactionUpdate(slot, info, _) =>
        if info.None? then None else Some(TransactionKey(slot, info.value.signature))
      case TransactionStatusUpdate(slot, signature) => Some(TransactionStatusKey(slot, signature))
      case SlotUpdate(slot, _, status) => Some(SlotKey(slot, status))
      case BlockMetaUpdate(slot, blockhash, _) => Some(BlockMetaKey(slot, blockhash))
      case EntryUpdate(slot, index, hash) => Some(EntryKey(slot, index, hash))
      case BlockFooterUpdate(slot, bankHash, _) => Some(BlockFooterKey(slot, bankHash))
      case _ => None
  }

  /**
   Two deliveries of one thing the cluster produced: same kind, same slot, same consensus-wide identity.
   What is local to a node or to a delivery (bank ids, parents, filter names, payload details) is ignored.
   */
  ghost predicate SameItem(p: Payload, q: Payload) {
    && !p.Ping? && !p.Pong? && !q.Ping? && !q.Pong? && p.slot == q.slot
    && ( || (p.TransactionUpdate? && q.TransactionUpdate? && p.info.Some? && q.info.Some?
             && p.info.value.signature == q.info.value.signature)
         || (p.TransactionStatusUpdate? && q.TransactionStatusUpdate? && p.signature == q.signature)
         || (p.SlotUpdate? && q.SlotUpdate? && p.status == q.status)
         || (p.BlockMetaUpdate? && q.BlockMetaUpdate? && p.blockhash == q.blockhash)
         || (p.EntryUpdate? && q.EntryUpdate? && p.index == q.index && p.hash == q.hash)
         || (p.BlockFooterUpdate? && q.BlockFooterUpdate? && p.bankHash == q.bankHash))
  }

  /** Keys tell apart exactly what must be told apart: competing blocks and re-landed transactions included. */
  lemma KeysIdentifyItems(u: SubscribeUpdate, v: SubscribeUpdate)
    requires u.payload.Some? && v.payload.Some?
    ensures ComputeDedupKey(u).Some? && ComputeDedupKey(u) == ComputeDedupKey(v) <==>
            SameItem(u.payload.value, v.payload.value)
  {
    var p, q := u.payload.value, v.payload.value;
    match p
    case TransactionUpdate(_, _, _) =>
    case TransactionStatusUpdate(_, _) =>
    case SlotUpdate(_, _, _) =>
    case BlockMetaUpdate(_, _, _) =>
    case EntryUpdate(_, _, _) =>
    case BlockFooterUpdate(_, _, _) =>
    case _ =>
  }
}
