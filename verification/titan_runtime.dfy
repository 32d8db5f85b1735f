/**
 * The subset of the titan runtime's `Call` enum a relay sends to titan: the
 * pallet index picks the pallet, then the pallet's own call enum follows. Also
 * the account-ownership digest a Wococo key signs for a titan account.
 */
module TitanRuntime {
  import opened Scale
  import opened BridgeCalls

  /** The pallets' indices in titan's `construct_runtime`. */
  const SYSTEM_INDEX: byte := 0
  const BRIDGE_GRANDPA_WOCOCO_INDEX: byte := 41
  const BRIDGE_MESSAGES_WOCOCO_INDEX: byte := 44

  datatype Call =
    | System(system: SystemCall)
    | BridgeGrandpaWococo(grandpa: GrandpaCall)
    | BridgeMessagesWococo(messages: MessagesCall)

  function CallIndex(c: Call): byte
  {
    match c
    case System(_) => SYSTEM_INDEX
    case BridgeGrandpaWococo(_) => BRIDGE_GRANDPA_WOCOCO_INDEX
    case BridgeMessagesWococo(_) => BRIDGE_MESSAGES_WOCOCO_INDEX
  }

  function EncodeInner(c: Call): Bytes
  {
    match c
    case System(inner) => EncodeSystemCall(inner)
    case BridgeGrandpaWococo(inner) => EncodeGrandpaCall(inner)
    case BridgeMessagesWococo(inner) => EncodeMessagesCall(inner)
  }

  /** The pallet index, then the pallet call's own index and fields. */
  function EncodeCall(c: Call): (r: Bytes)
    ensures |r| > 1 && r[0] == CallIndex(c) && r[1..] == EncodeInner(c)
  {
    [CallIndex(c)] + EncodeInner(c)
  }

  function DecodeInner(index: byte, b: Bytes): (r: Result<(Call, Bytes)>)
    ensures r.Ok? ==> CallIndex(r.value.0) == index && b == EncodeInner(r.value.0) + r.value.1
    ensures index !in {SYSTEM_INDEX, BRIDGE_GRANDPA_WOCOCO_INDEX, BRIDGE_MESSAGES_WOCOCO_INDEX}
         ==> r == Err(UnknownVariant(index))
  {
    if index == SYSTEM_INDEX then
      var inner := DecodeSystemCall(b);
      if inner.Err? then Err(inner.error) else Ok((System(inner.value.0), inner.value.1))
    else if index == BRIDGE_GRANDPA_WOCOCO_INDEX then
      var inner := DecodeGrandpaCall(b);
      if inner.Err? then Err(inner.error) else Ok((BridgeGrandpaWococo(inner.value.0), inner.value.1))
    else if index == BRIDGE_MESSAGES_WOCOCO_INDEX then
      var inner := DecodeMessagesCall(b);
      if inner.Err? then Err(inner.error) else Ok((BridgeMessagesWococo(inner.value.0), inner.value.1))
    else Err(UnknownVariant(index))
  }

  /**
   * Accepts exactly the encodings of calls: whatever decodes is an encoded call
   * followed by the untouched rest, and a leading byte that is no pallet index
   * here is refused.
   */
  function DecodeCall(b: Bytes): (r: Result<(Call, Bytes)>)
    ensures r.Ok? ==> b == EncodeCall(r.value.0) + r.value.1
    ensures |b| > 0 && b[0] !in {SYSTEM_INDEX, BRIDGE_GRANDPA_WOCOCO_INDEX, BRIDGE_MESSAGES_WOCOCO_INDEX}
         ==> r == Err(UnknownVariant(b[0]))
  {
    if |b| == 0 then Err(NotEnoughData)
    else
      var r := DecodeInner(b[0], b[1..]);
      if r.Err? then r
      else
        IndexThenFields(b, EncodeCall(r.value.0), EncodeInner(r.value.0), r.value.1);
        r
  }

  lemma InnerRoundTrip(c: Call, rest: Bytes)
    ensures DecodeInner(CallIndex(c), EncodeInner(c) + rest) == Ok((c, rest))
  {
    match c
    case System(inner) => SystemCallRoundTrip(inner, rest);
    case BridgeGrandpaWococo(inner) => GrandpaCallRoundTrip(inner, rest);
    case BridgeMessagesWococo(inner) => MessagesCallRoundTrip(inner, rest);
  }

  lemma CallRoundTrip(c: Call, rest: Bytes)
    ensures DecodeCall(EncodeCall(c) + rest) == Ok((c, rest))
  {
    IndexedBytes(CallIndex(c), EncodeInner(c), rest);
    InnerRoundTrip(c, rest);
  }

  /** Different calls never share an encoding, so a signature over one covers no other. */
  lemma EncodeCallInjective(c1: Call, c2: Call)
    requires EncodeCall(c1) == EncodeCall(c2)
    ensures c1 == c2
  {
    CallRoundTrip(c1, []);
    CallRoundTrip(c2, []);
    assert EncodeCall(c1) + [] == EncodeCall(c2) + [];
  }

  /**
   * The digest a Wococo key signs to show it controls `titan_account_id`:
   * titan is named as this chain and Wococo as the bridged chain.
   */
  function TitanToWococoAccountOwnershipDigest(wococo_call: Bytes, titan_account_id: Bytes,
                                               wococo_spec_version: Bytes): (d: OwnershipDigest)
    ensures d.call == wococo_call && d.account == titan_account_id && d.spec_version == wococo_spec_version
    ensures d.this_chain == TitanChainId && d.bridged_chain == WococoChainId
    ensures d.this_chain != d.bridged_chain
  {
    AccountOwnershipDigest(wococo_call, titan_account_id, wococo_spec_version, TitanChainId, WococoChainId)
  }
}
