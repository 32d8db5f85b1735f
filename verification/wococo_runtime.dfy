/**
 * The subset of the Wococo runtime's `Call` enum a relay sends to Wococo, laid
 * out like titan's but with titan's bridge pallets at their own indices. Also
 * the account-ownership digest a titan key signs for a Wococo account, the
 * mirror image of titan's.
 */
module WococoRuntime {
  import opened Scale
  import opened BridgeCalls
  import TitanRuntime

  /** The pallets' indices in Wococo's `construct_runtime`. */
  const SYSTEM_INDEX: byte := 0
  const BRIDGE_GRANDPA_TITAN_INDEX: byte := 40
  const BRIDGE_MESSAGES_TITAN_INDEX: byte := 43

  datatype Call =
    | System(system: SystemCall)
    | BridgeGrandpatitan(grandpa: GrandpaCall)
    | BridgeMessagestitan(messages: MessagesCall)

  function CallIndex(c: Call): byte
  {
    match c
    case System(_) => SYSTEM_INDEX
    case BridgeGrandpatitan(_) => BRIDGE_GRANDPA_TITAN_INDEX
    case BridgeMessagestitan(_) => BRIDGE_MESSAGES_TITAN_INDEX
  }

  function EncodeInner(c: Call): Bytes
  {
    match c
    case System(inner) => EncodeSystemCall(inner)
    case BridgeGrandpatitan(inner) => EncodeGrandpaCall(inner)
    case BridgeMessagestitan(inner) => EncodeMessagesCall(inner)
  }

  /** The pallet index, then the pallet call's own index and fields. */
  function EncodeCall(c: Call): (r: Bytes)
    ensures |r| > 1 && r[0] == CallIndex(c) && r[1..] == EncodeInner(c)
  {
    [CallIndex(c)] + EncodeInner(c)
  }

  function DecodeInner(index: byte, b: Bytes): (r: Result<(Call, Bytes)>)
    ensures r.Ok? ==> CallIndex(r.value.0) == index && b == EncodeInner(r.value.0) + r.value.1
    ensures index !in {SYSTEM_INDEX, BRIDGE_GRANDPA_TITAN_INDEX, BRIDGE_MESSAGES_TITAN_INDEX}
         ==> r == Err(UnknownVariant(index))
  {
    if index == SYSTEM_INDEX then
      var inner := DecodeSystemCall(b);
      if inner.Err? then Err(inner.error) else Ok((System(inner.value.0), inner.value.1))
    else if index == BRIDGE_GRANDPA_TITAN_INDEX then
      var inner := DecodeGrandpaCall(b);
      if inner.Err? then Err(inner.error) else Ok((BridgeGrandpatitan(inner.value.0), inner.value.1))
    else if index == BRIDGE_MESSAGES_TITAN_INDEX then
      var inner := DecodeMessagesCall(b);
      if inner.Err? then Err(inner.error) else Ok((BridgeMessagestitan(inner.value.0), inner.value.1))
    else Err(UnknownVariant(index))
  }

  /**
   * Accepts exactly the encodings of calls: whatever decodes is an encoded call
   * followed by the untouched rest, and a leading byte that is no pallet index
   * here is refused.
   */
  function DecodeCall(b: Bytes): (r: Result<(Call, Bytes)>)
    ensures r.Ok? ==> b == EncodeCall(r.value.0) + r.value.1
    ensures |b| > 0 && b[0] !in {SYSTEM_INDEX, BRIDGE_GRANDPA_TITAN_INDEX, BRIDGE_MESSAGES_TITAN_INDEX}
         ==> r == Err(UnknownVariant(b[0]))
  {
    if |b| == 0 then Err(NotEnoughData)
    else
      var r := DecodeInner(b[0], b[1..]);
      if r.Err? then r
      else
        IndexThenFields(b, EncodeCall(r.value.0), EncodeInner(r.value.0), r.value.1);
        r
  }

  lemma InnerRoundTrip(c: Call, rest: Bytes)
    ensures DecodeInner(CallIndex(c), EncodeInner(c) + rest) == Ok((c, rest))
  {
    match c
    case System(inner) => SystemCallRoundTrip(inner, rest);
    case BridgeGrandpatitan(inner) => GrandpaCallRoundTrip(inner, rest);
    case BridgeMessagestitan(inner) => MessagesCallRoundTrip(inner, rest);
  }

  lemma CallRoundTrip(c: Call, rest: Bytes)
    ensures DecodeCall(EncodeCall(c) + rest) == Ok((c, rest))
  {
    IndexedBytes(CallIndex(c), EncodeInner(c), rest);
    InnerRoundTrip(c, rest);
  }

  /** Different calls never share an encoding, so a signature over one covers no other. */
  lemma EncodeCallInjective(c1: Call, c2: Call)
    requires EncodeCall(c1) == EncodeCall(c2)
    ensures c1 == c2
  {
    CallRoundTrip(c1, []);
    CallRoundTrip(c2, []);
    assert EncodeCall(c1) + [] == EncodeCall(c2) + [];
  }

  /**
   * A bridge call meant for one chain is never a valid encoding of the same
   * call on the other: the pallet indices of the two runtimes differ.
   */
  lemma BridgeCallsChainSpecific(grandpa: GrandpaCall, messages: MessagesCall)
    ensures EncodeCall(BridgeGrandpatitan(grandpa))
         != TitanRuntime.EncodeCall(TitanRuntime.BridgeGrandpaWococo(grandpa))
    ensures EncodeCall(BridgeMessagestitan(messages))
         != TitanRuntime.EncodeCall(TitanRuntime.BridgeMessagesWococo(messages))
    ensures DecodeCall(TitanRuntime.EncodeCall(TitanRuntime.BridgeMessagesWococo(messages))).Err?
  {
  }

  /**
   * The digest a titan key signs to show it controls `wococo_account_id`:
   * Wococo is named as this chain and titan as the bridged chain.
   */
  function WococoToTitanAccountOwnershipDigest(titan_call: Bytes, wococo_account_id: Bytes,
                                               titan_spec_version: Bytes): (d: OwnershipDigest)
    ensures d.call == titan_call && d.account == wococo_account_id && d.spec_version == titan_spec_version
    ensures d.this_chain == WococoChainId && d.bridged_chain == TitanChainId
  {
    AccountOwnershipDigest(titan_call, wococo_account_id, titan_spec_version, WococoChainId, TitanChainId)
  }

  /**
   * The two digests are mirror images: the same arguments give the same digest
   * with the chain ids swapped, so a proof of ownership made for one direction
   * is never a proof for the other.
   */
  lemma OwnershipDigestsMirrored(call: Bytes, account: Bytes, spec_version: Bytes,
                                 call2: Bytes, account2: Bytes, spec_version2: Bytes)
    ensures var w := WococoToTitanAccountOwnershipDigest(call, account, spec_version);
            var t := TitanRuntime.TitanToWococoAccountOwnershipDigest(call, account, spec_version);
            w.this_chain == t.bridged_chain && w.bridged_chain == t.this_chain
            && w.(this_chain := t.this_chain, bridged_chain := t.bridged_chain) == t
    ensures WococoToTitanAccountOwnershipDigest(call, account, spec_version)
         != TitanRuntime.TitanToWococoAccountOwnershipDigest(call2, account2, spec_version2)
  {
  }
}
