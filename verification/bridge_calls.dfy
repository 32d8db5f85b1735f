/**
 * The pallet call enums a relay sends to a bridged chain, shared by the titan
 * and Wococo runtimes and by the ruby chain: each variant is pinned to a
 * one-byte index and followed by its fields in declaration order. Structures
 * whose layout lives in other crates travel as opaque length-prefixed bytes.
 * Also the chain identifiers and the terms for account derivation and
 * ownership digests, whose hashing is outside this model.
 */
module BridgeCalls {
  import opened Scale

  type Hash = h: Bytes | |h| == 32 witness seq(32, _ => 0)
  /** A 32-byte account id. */
  type AccountId = a: Bytes | |a| == 32 witness seq(32, _ => 0)
  /** A message lane id, `[u8; 4]`. */
  type LaneId = l: Bytes | |l| == 4 witness seq(4, _ => 0)
  type MessageNonce = u64
  type Weight = u64
  type Balance = u128

  /** A value whose layout belongs to a crate outside this model. */
  type Opaque = Blob

  type StorageProof = p: seq<Blob> | |p| < U32_LIMIT

  /** The bridged chain's proof of a range of outbound messages. */
  datatype MessagesProof = MessagesProof(
    bridged_header_hash: Hash,
    storage_proof: StorageProof,
    lane: LaneId,
    nonces_start: MessageNonce,
    nonces_end: MessageNonce)

  function EncodeMessagesProof(p: MessagesProof): (r: Bytes)
  {
    p.bridged_header_hash + EncodeBlobs(p.storage_proof) + p.lane
      + EncodeU64(p.nonces_start) + EncodeU64(p.nonces_end)
  }

  lemma MessagesProofCanonical(b: Bytes, p: MessagesProof, t1: Bytes, t2: Bytes, t3: Bytes, t4: Bytes, t5: Bytes)
    requires b == p.bridged_header_hash + t1
    requires t1 == EncodeBlobs(p.storage_proof) + t2
    requires t2 == p.lane + t3
    requires t3 == EncodeU64(p.nonces_start) + t4
    requires t4 == EncodeU64(p.nonces_end) + t5
    ensures b == EncodeMessagesProof(p) + t5
  {
  }

  function DecodeMessagesProof(b: Bytes): (r: Result<(MessagesProof, Bytes)>)
    ensures r.Ok? ==> b == EncodeMessagesProof(r.value.0) + r.value.1
  {
    var hash := DecodeArray(b, 32);
    if hash.Err? then Err(hash.error) else
    var proof := DecodeBlobs(hash.value.1);
    if proof.Err? then Err(proof.error) else
    var lane := DecodeArray(proof.value.1, 4);
    if lane.Err? then Err(lane.error) else
    var start := DecodeU64(lane.value.1);
    if start.Err? then Err(start.error) else
    var end := DecodeU64(start.value.1);
    if end.Err? then Err(end.error) else
    var p := MessagesProof(hash.value.0, proof.value.0, lane.value.0, start.value.0, end.value.0);
    MessagesProofCanonical(b, p, hash.value.1, proof.value.1, lane.value.1, start.value.1, end.value.1);
    Ok((p, end.value.1))
  }

  lemma MessagesProofRoundTrip(p: MessagesProof, rest: Bytes)
    ensures DecodeMessagesProof(EncodeMessagesProof(p) + rest) == Ok((p, rest))
  {
    var tail4 := EncodeU64(p.nonces_end) + rest;
    var tail3 := EncodeU64(p.nonces_start) + tail4;
    var tail2 := p.lane + tail3;
    var tail1 := EncodeBlobs(p.storage_proof) + tail2;
    assert EncodeMessagesProof(p) + rest == p.bridged_header_hash + tail1;
    ArrayRoundTrip(p.bridged_header_hash, tail1);
    BlobsRoundTrip(p.storage_proof, tail2);
    ArrayRoundTrip(p.lane, tail3);
    U64RoundTrip(p.nonces_start, tail4);
    U64RoundTrip(p.nonces_end, rest);
  }

  /** The index byte leads an enum's encoding, and its fields and the rest follow. */
  lemma IndexedBytes(index: byte, fields: Bytes, rest: Bytes)
    ensures var b := [index] + fields + rest; |b| > 0 && b[0] == index && b[1..] == fields + rest
  {
    var b := [index] + fields + rest;
    assert b == [index] + (fields + rest);
  }

  /** A pallet index and a call index in front of the call's fields. */
  lemma TwoIndexBytes(pallet: byte, call: byte, fields: Bytes)
    ensures [pallet] + ([call] + fields) == [pallet, call] + fields
  {
  }

  /** An enum's encoding is its index byte followed by its fields. */
  lemma IndexThenFields(b: Bytes, encoded: Bytes, fields: Bytes, rest: Bytes)
    requires |b| > 0 && encoded == [b[0]] + fields && b[1..] == fields + rest
    ensures b == encoded + rest
  {
    assert b == [b[0]] + b[1..];
  }

  // ---------------------------------------------------------------------------
  // `SystemCall`

  datatype SystemCall = Remark(remark: Blob)

  function SystemCallIndex(c: SystemCall): byte
  {
    1
  }

  function EncodeSystemCall(c: SystemCall): (r: Bytes)
    ensures |r| > 0 && r[0] == SystemCallIndex(c)
  {
    [SystemCallIndex(c)] + EncodeBlob(c.remark)
  }

  function DecodeSystemCall(b: Bytes): (r: Result<(SystemCall, Bytes)>)
    ensures r.Ok? ==> b == EncodeSystemCall(r.value.0) + r.value.1
    ensures |b| > 0 && b[0] != 1 ==> r == Err(UnknownVariant(b[0]))
  {
    if |b| == 0 then Err(NotEnoughData)
    else if b[0] != 1 then Err(UnknownVariant(b[0]))
    else
      var remark := DecodeBlob(b[1..]);
      if remark.Err? then Err(remark.error)
      else
        var c := Remark(remark.value.0);
        IndexThenFields(b, EncodeSystemCall(c), EncodeBlob(c.remark), remark.value.1);
        Ok((c, remark.value.1))
  }

  lemma SystemCallRoundTrip(c: SystemCall, rest: Bytes)
    ensures DecodeSystemCall(EncodeSystemCall(c) + rest) == Ok((c, rest))
  {
    var b := EncodeSystemCall(c) + rest;
    assert b[1..] == EncodeBlob(c.remark) + rest;
    BlobRoundTrip(c.remark, rest);
  }

  // ---------------------------------------------------------------------------
  // The GRANDPA bridge pallet's calls

  datatype GrandpaCall =
    | SubmitFinalityProof(header: Opaque, justification: Opaque)
    | Initialize(init_data: Opaque)

  function GrandpaCallIndex(c: GrandpaCall): byte
  {
    match c
    case SubmitFinalityProof(_, _) => 0
    case Initialize(_) => 1
  }

  function EncodeGrandpaFields(c: GrandpaCall): Bytes
  {
    match c
    case SubmitFinalityProof(header, justification) => EncodeBlob(header) + EncodeBlob(justification)
    case Initialize(init_data) => EncodeBlob(init_data)
  }

  function EncodeGrandpaCall(c: GrandpaCall): (r: Bytes)
    ensures |r| > 0 && r[0] == GrandpaCallIndex(c) && r[1..] == EncodeGrandpaFields(c)
  {
    [GrandpaCallIndex(c)] + EncodeGrandpaFields(c)
  }

  lemma TwoBlobsCanonical(b: Bytes, first: Blob, second: Blob, t1: Bytes, t2: Bytes)
    requires DecodeBlob(b) == Ok((first, t1)) && DecodeBlob(t1) == Ok((second, t2))
    ensures b == EncodeBlob(first) + EncodeBlob(second) + t2
  {
  }

  function DecodeGrandpaFields(index: byte, b: Bytes): (r: Result<(GrandpaCall, Bytes)>)
    ensures r.Ok? ==> GrandpaCallIndex(r.value.0) == index && b == EncodeGrandpaFields(r.value.0) + r.value.1
    ensures index != 0 && index != 1 ==> r == Err(UnknownVariant(index))
  {
    if index == 0 then
      var header := DecodeBlob(b);
      if header.Err? then Err(header.error) else
      var justification := DecodeBlob(header.value.1);
      if justification.Err? then Err(justification.error) else
      TwoBlobsCanonical(b, header.value.0, justification.value.0, header.value.1, justification.value.1);
      Ok((SubmitFinalityProof(header.value.0, justification.value.0), justification.value.1))
    else if index == 1 then
      var init_data := DecodeBlob(b);
      if init_data.Err? then Err(init_data.error) else
      Ok((Initialize(init_data.value.0), init_data.value.1))
    else Err(UnknownVariant(index))
  }

  /** Reads the call index, then the fields of the variant it names. */
  function DecodeGrandpaCall(b: Bytes): (r: Result<(GrandpaCall, Bytes)>)
    ensures r.Ok? ==> b == EncodeGrandpaCall(r.value.0) + r.value.1
    ensures |b| > 0 && b[0] != 0 && b[0] != 1 ==> r == Err(UnknownVariant(b[0]))
  {
    if |b| == 0 then Err(NotEnoughData)
    else
      var r := DecodeGrandpaFields(b[0], b[1..]);
      if r.Err? then r
      else
        IndexThenFields(b, EncodeGrandpaCall(r.value.0), EncodeGrandpaFields(r.value.0), r.value.1);
        r
  }

  lemma GrandpaCallRoundTrip(c: GrandpaCall, rest: Bytes)
    ensures DecodeGrandpaCall(EncodeGrandpaCall(c) + rest) == Ok((c, rest))
  {
    var b := EncodeGrandpaCall(c) + rest;
    assert b[0] == GrandpaCallIndex(c);
    assert b[1..] == EncodeGrandpaFields(c) + rest;
    match c
    case SubmitFinalityProof(header, justification) =>
      assert b[1..] == EncodeBlob(header) + (EncodeBlob(justification) + rest);
      BlobRoundTrip(header, EncodeBlob(justification) + rest);
      BlobRoundTrip(justification, rest);
    case Initialize(init_data) =>
      BlobRoundTrip(init_data, rest);
  }

  // ---------------------------------------------------------------------------
  // The messages bridge pallet's calls

  datatype MessagesCall =
    | SendMessage(lane_id: LaneId, payload: Opaque, delivery_and_dispatch_fee: Balance)
    | ReceiveMessagesProof(relayer_id_at_bridged_chain: AccountId, proof: MessagesProof,
                           messages_count: u32, dispatch_weight: Weight)
    | ReceiveMessagesDeliveryProof(delivery_proof: Opaque, relayers_state: Opaque)

  function MessagesCallIndex(c: MessagesCall): byte
  {
    match c
    case SendMessage(_, _, _) => 3
    case ReceiveMessagesProof(_, _, _, _) => 5
    case ReceiveMessagesDeliveryProof(_, _) => 6
  }

  function EncodeMessagesFields(c: MessagesCall): Bytes
  {
    match c
    case SendMessage(lane_id, payload, fee) =>
      lane_id + EncodeBlob(payload) + EncodeU128(fee)
    case ReceiveMessagesProof(relayer, proof, count, weight) =>
      relayer + EncodeMessagesProof(proof) + EncodeU32(count) + EncodeU64(weight)
    case ReceiveMessagesDeliveryProof(delivery_proof, relayers_state) =>
      EncodeBlob(delivery_proof) + EncodeBlob(relayers_state)
  }

  function EncodeMessagesCall(c: MessagesCall): (r: Bytes)
    ensures |r| > 0 && r[0] == MessagesCallIndex(c) && r[1..] == EncodeMessagesFields(c)
  {
    [MessagesCallIndex(c)] + EncodeMessagesFields(c)
  }

  lemma SendMessageCanonical(b: Bytes, c: MessagesCall, t1: Bytes, t2: Bytes, t3: Bytes)
    requires c.SendMessage?
    requires b == c.lane_id + t1
    requires DecodeBlob(t1) == Ok((c.payload, t2))
    requires t2 == EncodeU128(c.delivery_and_dispatch_fee) + t3
    ensures b == EncodeMessagesFields(c) + t3
  {
  }

  lemma ReceiveMessagesProofCanonical(b: Bytes, c: MessagesCall, t1: Bytes, t2: Bytes, t3: Bytes, t4: Bytes)
    requires c.ReceiveMessagesProof?
    requires b == c.relayer_id_at_bridged_chain + t1
    requires t1 == EncodeMessagesProof(c.proof) + t2
    requires t2 == EncodeU32(c.messages_count) + t3
    requires t3 == EncodeU64(c.dispatch_weight) + t4
    ensures b == EncodeMessagesFields(c) + t4
  {
  }

  function DecodeMessagesFields(index: byte, b: Bytes): (r: Result<(MessagesCall, Bytes)>)
    ensures r.Ok? ==> MessagesCallIndex(r.value.0) == index && b == EncodeMessagesFields(r.value.0) + r.value.1
    ensures index != 3 && index != 5 && index != 6 ==> r == Err(UnknownVariant(index))
  {
    if index == 3 then
      var lane := DecodeArray(b, 4);
      if lane.Err? then Err(lane.error) else
      var payload := DecodeBlob(lane.value.1);
      if payload.Err? then Err(payload.error) else
      var fee := DecodeU128(payload.value.1);
      if fee.Err? then Err(fee.error) else
      var c := SendMessage(lane.value.0, payload.value.0, fee.value.0);
      SendMessageCanonical(b, c, lane.value.1, payload.value.1, fee.value.1);
      Ok((c, fee.value.1))
    else if index == 5 then
      var relayer := DecodeArray(b, 32);
      if relayer.Err? then Err(relayer.error) else
      var proof := DecodeMessagesProof(relayer.value.1);
      if proof.Err? then Err(proof.error) else
      var count := DecodeU32(proof.value.1);
      if count.Err? then Err(count.error) else
      var weight := DecodeU64(count.value.1);
      if weight.Err? then Err(weight.error) else
      var c := ReceiveMessagesProof(relayer.value.0, proof.value.0, count.value.0, weight.value.0);
      ReceiveMessagesProofCanonical(b, c, relayer.value.1, proof.value.1, count.value.1, weight.value.1);
      Ok((c, weight.value.1))
    else if index == 6 then
      var delivery_proof := DecodeBlob(b);
      if delivery_proof.Err? then Err(delivery_proof.error) else
      var relayers_state := DecodeBlob(delivery_proof.value.1);
      if relayers_state.Err? then Err(relayers_state.error) else
      TwoBlobsCanonical(b, delivery_proof.value.0, relayers_state.value.0,
                        delivery_proof.value.1, relayers_state.value.1);
      Ok((ReceiveMessagesDeliveryProof(delivery_proof.value.0, relayers_state.value.0),
          relayers_state.value.1))
    else Err(UnknownVariant(index))
  }

  /** Reads the call index, then the fields of the variant it names. */
  function DecodeMessagesCall(b: Bytes): (r: Result<(MessagesCall, Bytes)>)
    ensures r.Ok? ==> b == EncodeMessagesCall(r.value.0) + r.value.1
    ensures |b| > 0 && b[0] != 3 && b[0] != 5 && b[0] != 6 ==> r == Err(UnknownVariant(b[0]))
  {
    if |b| == 0 then Err(NotEnoughData)
    else
      var r := DecodeMessagesFields(b[0], b[1..]);
      if r.Err? then r
      else
        IndexThenFields(b, EncodeMessagesCall(r.value.0), EncodeMessagesFields(r.value.0), r.value.1);
        r
  }

  lemma SendMessageRoundTrip(c: MessagesCall, rest: Bytes)
    requires c.SendMessage?
    ensures DecodeMessagesFields(3, EncodeMessagesFields(c) + rest) == Ok((c, rest))
  {
    var tail := EncodeU128(c.delivery_and_dispatch_fee) + rest;
    assert EncodeMessagesFields(c) + rest == c.lane_id + (EncodeBlob(c.payload) + tail);
    ArrayRoundTrip(c.lane_id, EncodeBlob(c.payload) + tail);
    BlobRoundTrip(c.payload, tail);
    U128RoundTrip(c.delivery_and_dispatch_fee, rest);
  }

  lemma ReceiveMessagesProofRoundTrip(c: MessagesCall, rest: Bytes)
    requires c.ReceiveMessagesProof?
    ensures DecodeMessagesFields(5, EncodeMessagesFields(c) + rest) == Ok((c, rest))
  {
    var tail := EncodeU32(c.messages_count) + (EncodeU64(c.dispatch_weight) + rest);
    assert EncodeMessagesFields(c) + rest
        == c.relayer_id_at_bridged_chain + (EncodeMessagesProof(c.proof) + tail);
    ArrayRoundTrip(c.relayer_id_at_bridged_chain, EncodeMessagesProof(c.proof) + tail);
    MessagesProofRoundTrip(c.proof, tail);
    U32RoundTrip(c.messages_count, EncodeU64(c.dispatch_weight) + rest);
    U64RoundTrip(c.dispatch_weight, rest);
  }

  lemma ReceiveMessagesDeliveryProofRoundTrip(c: MessagesCall, rest: Bytes)
    requires c.ReceiveMessagesDeliveryProof?
    ensures DecodeMessagesFields(6, EncodeMessagesFields(c) + rest) == Ok((c, rest))
  {
    var tail := EncodeBlob(c.relayers_state) + rest;
    assert EncodeMessagesFields(c) + rest == EncodeBlob(c.delivery_proof) + tail;
    BlobRoundTrip(c.delivery_proof, tail);
    BlobRoundTrip(c.relayers_state, rest);
  }

  lemma MessagesCallRoundTrip(c: MessagesCall, rest: Bytes)
    ensures DecodeMessagesCall(EncodeMessagesCall(c) + rest) == Ok((c, rest))
  {
    var b := EncodeMessagesCall(c) + rest;
    assert b[0] == MessagesCallIndex(c);
    assert b[1..] == EncodeMessagesFields(c) + rest;
    match c
    case SendMessage(_, _, _) => SendMessageRoundTrip(c, rest);
    case ReceiveMessagesProof(_, _, _, _) => ReceiveMessagesProofRoundTrip(c, rest);
    case ReceiveMessagesDeliveryProof(_, _) => ReceiveMessagesDeliveryProofRoundTrip(c, rest);
  }

  // ---------------------------------------------------------------------------
  // Chain identities, account derivation and ownership digests

  /** The bridged chains' four-byte identifiers; their byte values are outside this model. */
  datatype ChainId = TitanChainId | WococoChainId

  /** An account on the source chain as seen by the bridge: its root, or a plain account. */
  datatype SourceAccount = Root | Account(id: AccountId)

  /**
   * `account_ownership_digest(call, account, spec_version, this_chain, bridged_chain)`:
   * the bytes a bridged-chain key signs to prove it belongs to an account here.
   * The digest is kept as the term of its arguments; only their order matters here.
   */
  datatype OwnershipDigest = AccountOwnershipDigest(
    call: Bytes,
    account: Bytes,
    spec_version: Bytes,
    this_chain: ChainId,
    bridged_chain: ChainId)

  /**
   * `derive_account_id(chain, account)`: the hashed identity of a foreign account
   * within a chain's domain, kept as the term of its arguments.
   */
  datatype DerivedAccountId = DeriveAccountId(chain: ChainId, source: SourceAccount)

  /** `AccountIdConverter::convert`: turns a derived id into a local account. */
  datatype ConvertedAccount = AccountIdConverter(derived: DerivedAccountId)
}
