/**
 * The titan-to-Wococo message lane as the relay sets it up: the batch limits
 * it derives from Wococo's constants, the parameters it hands to the
 * message-lane loop, and the two calls it builds before signing them — the
 * delivery of a messages proof to Wococo and the confirmation of delivery
 * back to titan.
 *
 * The loop itself, `select_delivery_transaction_limits` and transaction
 * signing are outside this model: the first two are parameters, and a signed
 * transaction is kept as the term of what was signed.
 */
module TitanMessagesToWococo {
  import opened Scale
  import opened BridgeCalls
  import TitanRuntime
  import WococoRuntime

  // ---------------------------------------------------------------------------
  // Durations and constants

  /** A duration in milliseconds. */
  type Duration = nat

  /** The loop reports a stall after five minutes without progress. */
  const STALL_TIMEOUT: Duration := 5 * 60 * 1000

  /** titan's `AVERAGE_BLOCK_INTERVAL`: six seconds. */
  const TITAN_AVERAGE_BLOCK_INTERVAL: Duration := 6 * 1000

  /**
   * The Wococo chain constants the relay reads. Their values live in a crate
   * outside this model, so they are inputs here.
   */
  datatype WococoConstants = WococoConstants(
    max_extrinsic_size: u32,
    max_extrinsic_weight: Weight,
    max_unrewarded_relayer_entries_at_inbound_lane: MessageNonce,
    max_unconfirmed_messages_at_inbound_lane: MessageNonce,
    average_block_interval: Duration)

  /**
   * `select_delivery_transaction_limits`: from the maximal extrinsic weight and
   * the unrewarded-relayer entry limit, the maximal number of messages and their
   * maximal total weight in one delivery transaction.
   */
  type DeliveryLimitsSelector = (Weight, MessageNonce) -> (MessageNonce, Weight)

  // ---------------------------------------------------------------------------
  // Signing keys, the lane and unsigned transactions

  /** An sr25519 key pair; only its public half is looked at here. */
  datatype KeyPair = KeyPair(public: AccountId, secret: Bytes)

  /** A block of either chain, as the loop names it. */
  datatype HeaderId = HeaderId(number: nat, hash: Hash)

  /** The inputs `run` receives. */
  datatype MessagesRelayParams = MessagesRelayParams(
    source_genesis_hash: Hash,
    source_sign: KeyPair,
    target_genesis_hash: Hash,
    target_sign: KeyPair,
    lane_id: LaneId)

  /** The lane value both clients share. */
  datatype Lane = Lane(
    source_genesis_hash: Hash,
    source_sign: KeyPair,
    target_genesis_hash: Hash,
    target_sign: KeyPair,
    relayer_id_at_source: AccountId)

  /**
   * `sign_transaction(genesis_hash, signer, transaction_nonce, call)`: the
   * signed extrinsic, kept as the term of what the signer signs.
   */
  datatype SignedTransaction<C> = SignTransaction(
    genesis_hash: Hash,
    signer: KeyPair,
    transaction_nonce: nat,
    call: C)

  /** The account that signs transactions to titan: the public half of the titan signing pair. */
  function SourceTransactionsAuthor(lane: Lane): (author: AccountId)
    ensures author == lane.source_sign.public
  {
    lane.source_sign.public
  }

  /** The account that signs transactions to Wococo: the public half of the Wococo signing pair. */
  function TargetTransactionsAuthor(lane: Lane): (author: AccountId)
    ensures author == lane.target_sign.public
  {
    lane.target_sign.public
  }

  // ---------------------------------------------------------------------------
  // Batch limits

  /**
   * One third of Wococo's maximal extrinsic size is left for the messages of a
   * batch; the rest is reserved for the proof and the transaction's overhead.
   */
  function MaxMessagesSizeInSingleBatch(max_extrinsic_size: u32): (size: u32)
    ensures 3 * size <= max_extrinsic_size < 3 * size + 3
  {
    max_extrinsic_size / 3
  }

  /** Integer halving of an unsigned limit. */
  function Halve(x: u64): (half: u64)
    ensures 2 * half <= x <= 2 * half + 1
  {
    x / 2
  }

  /** Halving never raises a limit, and yields zero exactly for limits below two. */
  lemma HalveBounds(x: u64)
    ensures Halve(x) <= x
    ensures Halve(x) == 0 <==> x <= 1
  {
  }

  // ---------------------------------------------------------------------------
  // The parameters handed to the message-lane loop

  datatype RelayerMode = Altruistic | Rational

  datatype MessageDeliveryParams = MessageDeliveryParams(
    max_unrewarded_relayer_entries_at_target: MessageNonce,
    max_unconfirmed_nonces_at_target: MessageNonce,
    max_messages_in_single_batch: MessageNonce,
    max_messages_weight_in_single_batch: Weight,
    max_messages_size_in_single_batch: u32,
    relayer_mode: RelayerMode)

  datatype LoopParams = LoopParams(
    lane: LaneId,
    source_tick: Duration,
    target_tick: Duration,
    reconnect_delay: Duration,
    stall_timeout: Duration,
    delivery_params: MessageDeliveryParams)

  /**
   * A client of the loop: the node it talks to (by genesis hash), the lane, and
   * the id of the chain at the other end of the bridge.
   */
  datatype LaneClient = LaneClient(
    genesis_hash: Hash,
    lane: Lane,
    lane_id: LaneId,
    bridged_chain_id: ChainId)

  /** Everything `run` passes to the message-lane loop. */
  datatype MessageLaneSetup = MessageLaneSetup(
    params: LoopParams,
    source_client: LaneClient,
    target_client: LaneClient)

  /** The limits of one delivery batch, before and after the halving `run` applies. */
  function DeliveryParams(wococo: WococoConstants, select: DeliveryLimitsSelector): (p: MessageDeliveryParams)
    ensures p.max_unrewarded_relayer_entries_at_target == wococo.max_unrewarded_relayer_entries_at_inbound_lane
    ensures p.max_unconfirmed_nonces_at_target == wococo.max_unconfirmed_messages_at_inbound_lane
    ensures p.relayer_mode == Altruistic
    ensures 3 * p.max_messages_size_in_single_batch <= wococo.max_extrinsic_size
                                                     < 3 * p.max_messages_size_in_single_batch + 3
    ensures var (count, weight) := select(wococo.max_extrinsic_weight,
                                          wococo.max_unrewarded_relayer_entries_at_inbound_lane);
            2 * p.max_messages_in_single_batch <= count <= 2 * p.max_messages_in_single_batch + 1
            && 2 * p.max_messages_weight_in_single_batch <= weight
                 <= 2 * p.max_messages_weight_in_single_batch + 1
  {
    var (count, weight) := select(wococo.max_extrinsic_weight,
                                  wococo.max_unrewarded_relayer_entries_at_inbound_lane);
    MessageDeliveryParams(
      wococo.max_unrewarded_relayer_entries_at_inbound_lane,
      wococo.max_unconfirmed_messages_at_inbound_lane,
      Halve(count),
      Halve(weight),
      MaxMessagesSizeInSingleBatch(wococo.max_extrinsic_size),
      Altruistic)
  }

  /** The halved limits never exceed what the selector allows. */
  lemma DeliveryParamsWithinSelectedLimits(wococo: WococoConstants, select: DeliveryLimitsSelector)
    ensures var p := DeliveryParams(wococo, select);
            var (count, weight) := select(wococo.max_extrinsic_weight,
                                          wococo.max_unrewarded_relayer_entries_at_inbound_lane);
            p.max_messages_in_single_batch <= count
            && p.max_messages_weight_in_single_batch <= weight
            && p.max_messages_size_in_single_batch <= wococo.max_extrinsic_size
  {
  }

  /**
   * The setup `run` hands to the loop: titan is the source and ticks at its
   * block interval, Wococo the target at its own; the stall timeout is five
   * minutes; the source client is told the bridged chain is Wococo and the
   * target client that it is titan; the lane's relayer id is the source
   * signer's public key.
   */
  function Run(params: MessagesRelayParams, wococo: WococoConstants, select: DeliveryLimitsSelector,
               reconnect_delay: Duration): (s: MessageLaneSetup)
    ensures s.params.lane == params.lane_id
    ensures s.params.stall_timeout == 300_000
    ensures s.params.source_tick == 6_000 && s.params.target_tick == wococo.average_block_interval
    ensures s.params.reconnect_delay == reconnect_delay
    ensures s.params.delivery_params == DeliveryParams(wococo, select)
    ensures s.source_client.genesis_hash == params.source_genesis_hash
    ensures s.target_client.genesis_hash == params.target_genesis_hash
    ensures s.source_client.bridged_chain_id == WococoChainId
    ensures s.target_client.bridged_chain_id == TitanChainId
    ensures s.source_client.lane == s.target_client.lane
    ensures s.source_client.lane_id == s.target_client.lane_id == params.lane_id
    ensures s.source_client.lane.relayer_id_at_source == params.source_sign.public
    ensures s.source_client.lane.relayer_id_at_source == SourceTransactionsAuthor(s.source_client.lane)
    ensures TargetTransactionsAuthor(s.target_client.lane) == params.target_sign.public
  {
    var lane := Lane(params.source_genesis_hash, params.source_sign,
                     params.target_genesis_hash, params.target_sign,
                     params.source_sign.public);
    var loop := LoopParams(params.lane_id, TITAN_AVERAGE_BLOCK_INTERVAL, wococo.average_block_interval,
                           reconnect_delay, STALL_TIMEOUT, DeliveryParams(wococo, select));
    MessageLaneSetup(
      loop,
      LaneClient(params.source_genesis_hash, lane, params.lane_id, WococoChainId),
      LaneClient(params.target_genesis_hash, lane, params.lane_id, TitanChainId))
  }

  /** The two clients are told different bridged chains, each the other end of the lane. */
  lemma ClientsFaceEachOther(params: MessagesRelayParams, wococo: WococoConstants,
                             select: DeliveryLimitsSelector, reconnect_delay: Duration)
    ensures var s := Run(params, wococo, select, reconnect_delay);
            s.source_client.bridged_chain_id != s.target_client.bridged_chain_id
  {
  }

  // ---------------------------------------------------------------------------
  // The number of delivered messages

  /** The nonces from `start` to `end`, both included. */
  function NonceRange(start: int, end: int): (r: set<int>)
    ensures forall n :: n in r <==> start <= n <= end
    decreases end - start
  {
    if end < start then {} else NonceRange(start, end - 1) + {end}
  }

  /** An inclusive range holds one nonce more than the distance of its ends. */
  lemma {:induction false} NonceRangeSize(start: int, end: int)
    requires start <= end + 1
    ensures |NonceRange(start, end)| == end - start + 1
    decreases end - start
  {
    if start == end + 1 {
      assert NonceRange(start, end) == {};
    } else {
      NonceRangeSize(start, end - 1);
      assert NonceRange(start, end) == NonceRange(start, end - 1) + {end};
    }
  }

  /**
   * `nonces_end - nonces_start + 1`, narrowed to the call's `u32` field. The
   * subtraction and the addition wrap as unsigned 64-bit arithmetic does in a
   * release build, and the narrowing keeps the low 32 bits; so the result is
   * always the size of the range modulo 2^32, and exactly that size when the
   * range is well formed and fits.
   */
  function MessagesCount(proof: MessagesProof): (count: u32)
    ensures (proof.nonces_end - proof.nonces_start + 1 - count) % U32_LIMIT == 0
    ensures proof.nonces_start <= proof.nonces_end
            && proof.nonces_end - proof.nonces_start + 1 < U32_LIMIT
            ==> count == proof.nonces_end - proof.nonces_start + 1
  {
    var wide: u64 := (proof.nonces_end - proof.nonces_start + 1) % U64_LIMIT;
    wide % U32_LIMIT
  }

  /** For a well-formed proof of fewer than 2^32 messages, the count is the number of nonces it covers. */
  lemma MessagesCountIsRangeSize(proof: MessagesProof)
    requires proof.nonces_start <= proof.nonces_end
    requires proof.nonces_end - proof.nonces_start + 1 < U32_LIMIT
    ensures MessagesCount(proof) == |NonceRange(proof.nonces_start, proof.nonces_end)|
  {
    NonceRangeSize(proof.nonces_start, proof.nonces_end);
  }

  // ---------------------------------------------------------------------------
  // The delivery transaction (to Wococo)

  /**
   * `make_messages_delivery_transaction`: the target signer's transaction,
   * against Wococo's genesis, carrying `receive_messages_proof` with the
   * source relayer id, the proof, the count of the proof's own nonce range and
   * the dispatch weight, in that order. The block the proof was made at and
   * the nonce range the loop passes are not used.
   */
  function MakeMessagesDeliveryTransaction(lane: Lane, transaction_nonce: nat,
                                           generated_at_header: HeaderId, nonces_start: MessageNonce,
                                           nonces_end: MessageNonce, proof: (Weight, MessagesProof))
    : (tx: SignedTransaction<WococoRuntime.Call>)
    ensures tx.genesis_hash == lane.target_genesis_hash
    ensures tx.signer == lane.target_sign && tx.transaction_nonce == transaction_nonce
    ensures tx.signer.public == TargetTransactionsAuthor(lane)
    ensures WococoRuntime.EncodeCall(tx.call)
         == [WococoRuntime.BRIDGE_MESSAGES_TITAN_INDEX, 5]
            + (lane.relayer_id_at_source + EncodeMessagesProof(proof.1)
               + EncodeU32(MessagesCount(proof.1)) + EncodeU64(proof.0))
  {
    var (dispatch_weight, messages_proof) := proof;
    var receive := ReceiveMessagesProof(lane.relayer_id_at_source, messages_proof,
                                        MessagesCount(messages_proof), dispatch_weight);
    TwoIndexBytes(WococoRuntime.BRIDGE_MESSAGES_TITAN_INDEX, 5, EncodeMessagesFields(receive));
    var call := WococoRuntime.BridgeMessagestitan(receive);
    SignTransaction(lane.target_genesis_hash, lane.target_sign, transaction_nonce, call)
  }

  /**
   * Wococo reads the delivery call back as exactly the `receive_messages_proof`
   * the relay meant, and the result depends on neither of the unused arguments.
   */
  lemma DeliveryTransactionDecodes(lane: Lane, transaction_nonce: nat,
                                   generated_at_header: HeaderId, nonces_start: MessageNonce,
                                   nonces_end: MessageNonce, proof: (Weight, MessagesProof),
                                   other_header: HeaderId, other_start: MessageNonce, other_end: MessageNonce)
    ensures var tx := MakeMessagesDeliveryTransaction(lane, transaction_nonce, generated_at_header,
                                                      nonces_start, nonces_end, proof);
            WococoRuntime.DecodeCall(WococoRuntime.EncodeCall(tx.call))
            == Ok((WococoRuntime.BridgeMessagestitan(
                     ReceiveMessagesProof(lane.relayer_id_at_source, proof.1, MessagesCount(proof.1), proof.0)),
                   []))
    ensures MakeMessagesDeliveryTransaction(lane, transaction_nonce, generated_at_header,
                                            nonces_start, nonces_end, proof)
         == MakeMessagesDeliveryTransaction(lane, transaction_nonce, other_header,
                                            other_start, other_end, proof)
  {
    var tx := MakeMessagesDeliveryTransaction(lane, transaction_nonce, generated_at_header,
                                              nonces_start, nonces_end, proof);
    WococoRuntime.CallRoundTrip(tx.call, []);
    assert WococoRuntime.EncodeCall(tx.call) + [] == WococoRuntime.EncodeCall(tx.call);
  }

  // ---------------------------------------------------------------------------
  // The confirmation transaction (to titan)

  /**
   * `make_messages_receiving_proof_transaction`: the source signer's
   * transaction, against titan's genesis, carrying
   * `receive_messages_delivery_proof`. The loop hands over the pair
   * (relayers state, proof); the call takes them the other way round. The block
   * the proof was made at is not used.
   */
  function MakeMessagesReceivingProofTransaction(lane: Lane, transaction_nonce: nat,
                                                 generated_at_block: HeaderId, proof: (Opaque, Opaque))
    : (tx: SignedTransaction<TitanRuntime.Call>)
    ensures tx.genesis_hash == lane.source_genesis_hash
    ensures tx.signer == lane.source_sign && tx.transaction_nonce == transaction_nonce
    ensures tx.signer.public == SourceTransactionsAuthor(lane)
    ensures TitanRuntime.EncodeCall(tx.call)
         == [TitanRuntime.BRIDGE_MESSAGES_WOCOCO_INDEX, 6] + (EncodeBlob(proof.1) + EncodeBlob(proof.0))
  {
    var (relayers_state, delivery_proof) := proof;
    var confirm := ReceiveMessagesDeliveryProof(delivery_proof, relayers_state);
    TwoIndexBytes(TitanRuntime.BRIDGE_MESSAGES_WOCOCO_INDEX, 6, EncodeMessagesFields(confirm));
    var call := TitanRuntime.BridgeMessagesWococo(confirm);
    SignTransaction(lane.source_genesis_hash, lane.source_sign, transaction_nonce, call)
  }

  /**
   * titan reads the confirmation call back with the proof first and the
   * relayers state second, and the result does not depend on the unused block.
   */
  lemma ReceivingProofTransactionDecodes(lane: Lane, transaction_nonce: nat, generated_at_block: HeaderId,
                                         proof: (Opaque, Opaque), other_block: HeaderId)
    ensures var tx := MakeMessagesReceivingProofTransaction(lane, transaction_nonce, generated_at_block, proof);
            TitanRuntime.DecodeCall(TitanRuntime.EncodeCall(tx.call))
            == Ok((TitanRuntime.BridgeMessagesWococo(ReceiveMessagesDeliveryProof(proof.1, proof.0)), []))
    ensures MakeMessagesReceivingProofTransaction(lane, transaction_nonce, generated_at_block, proof)
         == MakeMessagesReceivingProofTransaction(lane, transaction_nonce, other_block, proof)
  {
    var tx := MakeMessagesReceivingProofTransaction(lane, transaction_nonce, generated_at_block, proof);
    TitanRuntime.CallRoundTrip(tx.call, []);
    assert TitanRuntime.EncodeCall(tx.call) + [] == TitanRuntime.EncodeCall(tx.call);
  }
}
