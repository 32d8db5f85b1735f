# Relay-chain primitives and bridge call tables, in Dafny

This project models three self-contained cores of a relay-chain code base.

- **Candidate primitives (`primitives/src/v0.rs`).** These cover:
  - the saturating message fee schedule;
  - the 68-byte payload a collator signs;
  - the backing-statement codec with its `"BKNG"` magic prefix, and the signing payloads built on it;
  - the candidate receipt, its abridged form, and the projections between them (collation info, descriptor);
  - the receipt ordering, the validity-error codes, and the swap hook that always refuses.

  The payload and the statement codec exist twice: once as functions on byte sequences, and once in the source's imperative form. That form is a method that fills a 68-byte `array` with a copy loop, an `encode_to` that writes into an `Output` sink, and a `decode` that consumes an `Input` cursor. Each method is proved against its function.
- **Bridge call tables.** These come from the titan and Wococo relay clients and the ruby chain primitives. Each `Call` enum is a tagged SCALE encoding: a pallet index, then the pallet call's own index, then the fields. The model proves three things about each table:
  - decoding inverts encoding;
  - whatever decodes is a canonical encoding;
  - an unknown index is refused.

  Also modelled:
  - the two account-ownership digests and their mirrored chain-id order;
  - the derivation of a ruby account from a titan account;
  - the runtime-API method names, which have the form `<trait>_<method>`;
  - the promises the `message_details` and fee-estimate APIs make about their answers.
- **The titan-to-Wococo message lane (`titan_messages_to_wococo.rs`).** This covers:
  - the batch limits derived from Wococo's constants: a third of the extrinsic size, and halved count and weight limits;
  - the parameters handed to the message-lane loop;
  - the message count taken from a proof's inclusive nonce range;
  - the delivery and confirmation calls built before signing.

Modules:

| file | module | contents |
|---|---|---|
| `scale.dfy` | `Scale` | little-endian integers, compact `u32`, `Vec<u8>`, `Vec<Vec<u8>>`, `Output` / `Input` |
| `primitives_v0.dfy` | `PrimitivesV0` | fee, collator payload, statements, receipts, ordering |
| `bridge_calls.dfy` | `BridgeCalls` | the system, GRANDPA and messages pallet call enums, the messages proof, chain ids, digest terms |
| `titan_runtime.dfy` | `TitanRuntime` | titan's outer `Call` table and ownership digest |
| `wococo_runtime.dfy` | `WococoRuntime` | Wococo's outer `Call` table and ownership digest |
| `ruby_chain.dfy` | `RubyChain` | ruby's `Call`, runtime version, account derivation, API names and contracts |
| `titan_messages_to_wococo.dfy` | `TitanMessagesToWococo` | lane parameters, message count, delivery and confirmation calls |

Hashing, signature verification and the crate-external derivations are not computed. Account derivation and ownership digests are datatype terms of their arguments. Their collision-freedom is therefore assumed, not proved, and what the model shows about them is which arguments they receive, in which order, and under which chain id. Ruby's runtime version is the constant `RubyChain.VERSION`, holding the source's field values. A signature check is a function-typed parameter. A signed transaction is the term of what was signed.

## Model

| member | source | states |
|---|---|---|
| Scale.U32RoundTrip | primitives/src/v0.rs:292 | a `u32` encodes as 4 little-endian bytes that decode back to it, leaving any following bytes untouched |
| Scale.U64RoundTrip | bridges/relays/client-titan/src/runtime.rs:117 | the same for a `u64` (8 bytes) |
| Scale.U128RoundTrip | bridges/relays/client-titan/src/runtime.rs:110 | the same for a `u128` (16 bytes) |
| Scale.DecodeU32 | primitives/src/v0.rs:292 | decoding succeeds exactly when 4 bytes are available, and what it accepts is the encoding of the value it returns followed by the rest |
| Scale.ArrayRoundTrip | primitives/src/v0.rs:714 | a fixed array decodes as exactly its own bytes, with no length prefix |
| Scale.DecodeArray | primitives/src/v0.rs:714 | succeeds exactly when `n` bytes are available, splits the input there, and otherwise fails with not-enough-data |
| Scale.DecodeCompact | bridges/relays/client-titan/src/runtime.rs:83 | whatever it accepts is the shortest (canonical) compact encoding of the returned value, followed by the rest |
| Scale.CompactRoundTrip | bridges/relays/client-titan/src/runtime.rs:83 | every `u32` length prefix decodes back to itself in each of the four modes |
| Scale.DecodeBlob | bridges/relays/client-titan/src/runtime.rs:83 | a `Vec<u8>` is accepted only as its canonical length prefix plus exactly that many bytes |
| Scale.BlobRoundTrip | bridges/relays/client-titan/src/runtime.rs:83 | a `Vec<u8>` decodes back to itself |
| Scale.DecodeBlobItems | bridges/relays/client-titan/src/runtime.rs:115 | reading `count` items yields exactly `count` items whose encodings make up the consumed bytes |
| Scale.DecodeBlobs | bridges/relays/client-titan/src/runtime.rs:115 | a `Vec<Vec<u8>>` is accepted only as its canonical encoding |
| Scale.BlobItemsRoundTrip | bridges/relays/client-titan/src/runtime.rs:115 | any sequence of items decodes back to itself, by induction on the items |
| Scale.BlobsRoundTrip | bridges/relays/client-titan/src/runtime.rs:115 | a `Vec<Vec<u8>>` decodes back to itself |
| Scale.Output.Write | primitives/src/v0.rs:704-707 | writing appends the bytes to the sink and changes nothing else |
| Scale.Input.Read | primitives/src/v0.rs:711-714 | reading `n` bytes returns the next `n` bytes and advances the cursor, or fails with not-enough-data and leaves the cursor where it was |
| PrimitivesV0.ComputeMessageFee | primitives/src/v0.rs:819-825 | the fee is `base + n_bytes * per_byte` clamped at `u128::MAX` (so it never wraps) and is at least the base fee |
| PrimitivesV0.FeeMonotone | primitives/src/v0.rs:807-825 | for a fixed schedule, a longer message never costs less |
| PrimitivesV0.CollatorPayloadParses | primitives/src/v0.rs:283-296 | the 68-byte payload holds the relay parent at 0..32, the para id as a little-endian `u32` at 32..36 and the PoV hash at 36..68, all recoverable |
| PrimitivesV0.CollatorPayloadInjective | primitives/src/v0.rs:283-296 | different (relay parent, para, PoV hash) triples never share a payload, so a signature binds all three |
| PrimitivesV0.CopyFromSlice | primitives/src/v0.rs:291-293 | copying a slice into the buffer at `start` replaces exactly those positions and keeps the bytes before and after |
| PrimitivesV0.CollatorSignaturePayload | primitives/src/v0.rs:283-296 | the array filled in place is 68 bytes long and equals the payload layout |
| PrimitivesV0.EncodeStatement | primitives/src/v0.rs:698-708 | a statement encodes as 37 bytes beginning with `"BKNG"` |
| PrimitivesV0.DecodeStatementInner | primitives/src/v0.rs:682-687 | a leading byte other than 1 (`Seconded`) or 2 (`Valid`) is refused as an unknown variant, and whatever is accepted is the variant's index, then its hash, then the untouched rest |
| PrimitivesV0.DecodeStatement | primitives/src/v0.rs:710-724 | input whose first four bytes are not `"BKNG"` is refused with the invalid-magic error, and whatever is accepted is a canonical statement encoding |
| PrimitivesV0.StatementRoundTrip | primitives/src/v0.rs:681-724 | `Seconded` (index 1) and `Valid` (index 2) statements decode back to themselves |
| PrimitivesV0.CandidateHashOf | primitives/src/v0.rs:726-733 | the hash returned is the one the statement carries, and it is the last 32 bytes of its encoding |
| PrimitivesV0.EncodeStatementTo | primitives/src/v0.rs:704-707 | writes the magic and the inner encoding into the sink, which then holds exactly the statement's encoding after what it held before |
| PrimitivesV0.DecodeStatementFrom | primitives/src/v0.rs:710-724 | reading from a cursor succeeds or fails exactly as the byte-level decoder does on the remaining input, and on success consumes exactly the statement; after a wrong magic exactly the four magic bytes are gone from the cursor |
| PrimitivesV0.EncodeSigningContext | primitives/src/v0.rs:776-781 | a signing context encodes as 36 bytes |
| PrimitivesV0.SigningContextInjective | primitives/src/v0.rs:776-781 | different signing contexts never share an encoding |
| PrimitivesV0.SigningPayload | primitives/src/v0.rs:675-677 | the payload is 73 bytes and decodes to the statement followed by the encoded context |
| PrimitivesV0.SigningPayloadInjective | primitives/src/v0.rs:675-677 | a signing payload determines both the statement and the context |
| PrimitivesV0.SignedPayload | primitives/src/v0.rs:758-771 | an implicit attestation signs a `Seconded` statement, an explicit one a `Valid` statement, each followed by the context |
| PrimitivesV0.AttestationKindsSeparated | primitives/src/v0.rs:758-771 | an implicit and an explicit attestation for the same candidate and context never sign the same bytes |
| PrimitivesV0.Abridge | primitives/src/v0.rs:352-378 | the omitted part holds exactly the global and local validation data, and completing the abridged receipt with it gives back the receipt |
| PrimitivesV0.Complete | primitives/src/v0.rs:471-494 | the full receipt takes every field of the abridged receipt, and the global and local validation data of the omitted part |
| PrimitivesV0.AbridgeComplete | primitives/src/v0.rs:471-495 | abridging a completed receipt gives back the abridged receipt and the omitted data |
| PrimitivesV0.ToCollationInfo | primitives/src/v0.rs:498-517 | turning the collation info back into a receipt with the same commitments gives back the abridged receipt |
| PrimitivesV0.CollationInfoRoundTrip | primitives/src/v0.rs:599-618 | `into_receipt` keeps every field of the collation info and takes the supplied commitments |
| PrimitivesV0.IntoReceipt | primitives/src/v0.rs:599-618 | the abridged receipt keeps the collation info's para id, relay parent, collator, signature, head data and PoV hash, and takes the supplied commitments |
| PrimitivesV0.ToDescriptor | primitives/src/v0.rs:520-528 | the descriptor copies para id, relay parent, collator, signature and PoV hash from the abridged receipt |
| PrimitivesV0.DescriptorKeys | primitives/src/v0.rs:520-528 | two receipts have the same descriptor exactly when para id, relay parent, collator, signature and PoV hash agree; head data and commitments never change it |
| PrimitivesV0.PayloadFromParts | primitives/src/v0.rs:283-296 | every 68-byte buffer is the payload of the triple read back from it |
| PrimitivesV0.CheckCollatorSignature | primitives/src/v0.rs:298-311 | the check succeeds exactly when the signature verifies, under the collator's key, over the 68 bytes that hold the given relay parent, para id and PoV hash |
| PrimitivesV0.CheckReceiptSignature | primitives/src/v0.rs:340-348 | a receipt passes exactly when its abridged form passes |
| PrimitivesV0.CheckAbridgedSignature | primitives/src/v0.rs:446-454 | an abridged receipt passes exactly when its collation info passes |
| PrimitivesV0.CheckCollationSignature | primitives/src/v0.rs:588-596 | the collation info passes exactly when its signature verifies, under its collator's key, over the payload of its relay parent, para id and PoV hash |
| PrimitivesV0.SignatureCheckSurvivesProjection | primitives/src/v0.rs:298-311 | the collator-signature check gives the same answer on a receipt, its abridged form and its collation info |
| PrimitivesV0.CmpBytes | primitives/src/v0.rs:393 | a proper prefix orders first, and byte strings of different lengths never compare equal |
| PrimitivesV0.CmpReceipts | primitives/src/v0.rs:387-394 | receipts are ordered by para id, and by head data only when the para ids are equal |
| PrimitivesV0.CmpAbridged | primitives/src/v0.rs:537-544 | abridged receipts are ordered by para id, and by head data only when the para ids are equal |
| PrimitivesV0.CmpBytesReverse | primitives/src/v0.rs:393 | comparing byte strings the other way round reverses the ordering |
| PrimitivesV0.CmpBytesEqual | primitives/src/v0.rs:393 | byte strings compare equal exactly when they are equal |
| PrimitivesV0.CmpBytesTransitive | primitives/src/v0.rs:393 | the byte-string order is transitive |
| PrimitivesV0.ReceiptOrderKeys | primitives/src/v0.rs:387-394 | receipts compare equal exactly when para id and head data agree; nothing else is looked at |
| PrimitivesV0.ReceiptOrderReverse | primitives/src/v0.rs:387-394 | the receipt order is antisymmetric |
| PrimitivesV0.ReceiptOrderTransitive | primitives/src/v0.rs:387-394 | the receipt order is transitive |
| PrimitivesV0.AbridgedOrderAgrees | primitives/src/v0.rs:537-544 | abridged receipts are ordered as the receipts they come from |
| PrimitivesV0.ValidityErrorCode | primitives/src/v0.rs:865-880 | the error code fits in 0..3 |
| PrimitivesV0.ValidityErrorCodeInjective | primitives/src/v0.rs:865-880 | distinct validity errors have distinct codes |
| PrimitivesV0.EnsureCanSwap | primitives/src/v0.rs:200-202 | every swap is refused with "Swapping disabled" |
| PrimitivesV0.OnSwap | primitives/src/v0.rs:203-205 | the swap hook always refuses with "Swapping disabled" |
| PrimitivesV0.OnSwapMeetsContract | primitives/src/v0.rs:199-206 | whenever the hook refuses a swap, the pre-check refuses it too, so the two never disagree |
| BridgeCalls.DecodeMessagesProof | bridges/relays/client-titan/src/runtime.rs:115 | whatever decodes is the canonical encoding of a messages proof: header hash, storage proof, lane, first and last nonce |
| BridgeCalls.MessagesProofRoundTrip | bridges/relays/client-titan/src/runtime.rs:115 | a messages proof decodes back to itself |
| BridgeCalls.EncodeSystemCall | bridges/relays/client-titan/src/runtime.rs:79-84 | `remark` encodes with index 1 |
| BridgeCalls.DecodeSystemCall | bridges/relays/client-titan/src/runtime.rs:79-84 | any index other than 1 is refused as an unknown variant, and whatever is accepted is canonical |
| BridgeCalls.SystemCallRoundTrip | bridges/relays/client-titan/src/runtime.rs:79-84 | a system call decodes back to itself |
| BridgeCalls.EncodeGrandpaCall | bridges/relays/client-titan/src/runtime.rs:86-96 | the index byte (0 for `submit_finality_proof`, 1 for `initialize`) is followed by the fields |
| BridgeCalls.DecodeGrandpaFields | bridges/relays/client-titan/src/runtime.rs:86-96 | an index other than 0 or 1 is refused, and accepted fields are canonical for the variant the index names |
| BridgeCalls.DecodeGrandpaCall | bridges/relays/client-titan/src/runtime.rs:86-96 | a leading byte other than 0 or 1 is refused, and whatever is accepted is canonical |
| BridgeCalls.GrandpaCallRoundTrip | bridges/relays/client-titan/src/runtime.rs:86-96 | a GRANDPA call decodes back to itself |
| BridgeCalls.EncodeMessagesCall | bridges/relays/client-titan/src/runtime.rs:98-124 | the index byte (3, 5 or 6) is followed by the variant's fields |
| BridgeCalls.DecodeMessagesFields | bridges/relays/client-titan/src/runtime.rs:98-124 | indices other than 3, 5 and 6 are refused, and accepted fields are canonical for the variant the index names |
| BridgeCalls.DecodeMessagesCall | bridges/relays/client-titan/src/runtime.rs:98-124 | a leading byte other than 3, 5 or 6 is refused, and whatever is accepted is canonical |
| BridgeCalls.SendMessageRoundTrip | bridges/relays/client-titan/src/runtime.rs:101-111 | `send_message` fields (lane, payload, fee) decode back to themselves |
| BridgeCalls.ReceiveMessagesProofRoundTrip | bridges/relays/client-titan/src/runtime.rs:112-118 | `receive_messages_proof` fields (relayer, proof, count, weight) decode back to themselves |
| BridgeCalls.ReceiveMessagesDeliveryProofRoundTrip | bridges/relays/client-titan/src/runtime.rs:119-123 | `receive_messages_delivery_proof` fields (proof, relayers state) decode back to themselves |
| BridgeCalls.MessagesCallRoundTrip | bridges/relays/client-titan/src/runtime.rs:98-124 | a messages call decodes back to itself |
| TitanRuntime.EncodeCall | bridges/relays/client-titan/src/runtime.rs:66-77 | the pallet index (0, 41 or 44) leads, followed by the pallet call's encoding |
| TitanRuntime.DecodeInner | bridges/relays/client-titan/src/runtime.rs:66-77 | pallet indices other than 0, 41 and 44 are refused |
| TitanRuntime.DecodeCall | bridges/relays/client-titan/src/runtime.rs:66-124 | an unknown pallet index is refused, and whatever is accepted is the returned call's canonical encoding followed by the untouched rest |
| TitanRuntime.InnerRoundTrip | bridges/relays/client-titan/src/runtime.rs:66-124 | each pallet's call decodes back to itself under its own pallet index |
| TitanRuntime.CallRoundTrip | bridges/relays/client-titan/src/runtime.rs:66-124 | every titan call decodes back to itself |
| TitanRuntime.EncodeCallInjective | bridges/relays/client-titan/src/runtime.rs:66-124 | distinct calls never share an encoding |
| TitanRuntime.TitanToWococoAccountOwnershipDigest | bridges/relays/client-titan/src/runtime.rs:36-53 | the digest forwards call, account and spec version, then titan's chain id before Wococo's |
| WococoRuntime.EncodeCall | bridges/relays/client-wococo/src/runtime.rs:66-77 | the pallet index (0, 40 or 43) leads, followed by the pallet call's encoding |
| WococoRuntime.DecodeInner | bridges/relays/client-wococo/src/runtime.rs:66-77 | pallet indices other than 0, 40 and 43 are refused |
| WococoRuntime.DecodeCall | bridges/relays/client-wococo/src/runtime.rs:66-124 | an unknown pallet index is refused, and whatever is accepted is canonical |
| WococoRuntime.InnerRoundTrip | bridges/relays/client-wococo/src/runtime.rs:66-124 | each pallet's call decodes back to itself under its own pallet index |
| WococoRuntime.CallRoundTrip | bridges/relays/client-wococo/src/runtime.rs:66-124 | every Wococo call decodes back to itself |
| WococoRuntime.EncodeCallInjective | bridges/relays/client-wococo/src/runtime.rs:66-124 | distinct calls never share an encoding |
| WococoRuntime.BridgeCallsChainSpecific | bridges/relays/client-wococo/src/runtime.rs:66-77 | a bridge call encoded for one chain differs from the same call encoded for the other, and Wococo refuses titan's messages call |
| WococoRuntime.WococoToTitanAccountOwnershipDigest | bridges/relays/client-wococo/src/runtime.rs:36-53 | the digest forwards call, account and spec version, then Wococo's chain id before titan's |
| WococoRuntime.OwnershipDigestsMirrored | bridges/relays/client-wococo/src/runtime.rs:36-53 | the two digests differ only in the swapped chain ids, so a digest for one direction is never one for the other |
| RubyChain.EncodeCall | bridges/primitives/chain-ruby/src/lib.rs:56-61 | the only pallet index, 40, leads the GRANDPA call's encoding |
| RubyChain.DecodeCall | bridges/primitives/chain-ruby/src/lib.rs:56-73 | any leading byte other than 40 is refused, and whatever is accepted is canonical |
| RubyChain.CallRoundTrip | bridges/primitives/chain-ruby/src/lib.rs:56-73 | every ruby call decodes back to itself |
| RubyChain.DeriveAccountFromTitanId | bridges/primitives/chain-ruby/src/lib.rs:88-91 | the account is derived from the given titan account within titan's chain domain, then converted |
| RubyChain.DerivedAccountsDistinct | bridges/primitives/chain-ruby/src/lib.rs:88-91 | distinct titan accounts give distinct ruby accounts, none equal to one derived in Wococo's domain |
| RubyChain.SplitMethodName | bridges/primitives/chain-ruby/src/lib.rs:93-113 | a split name is `<trait>_<method>` with an underscore-free trait part |
| RubyChain.SplitRuntimeMethodName | bridges/primitives/chain-ruby/src/lib.rs:93-113 | for an underscore-free trait, the split recovers trait and method from `<trait>_<method>` |
| RubyChain.DeclaredMethodResolves | bridges/primitives/chain-ruby/src/lib.rs:93-113 | a name built from a method the trait declares resolves to that trait and method |
| RubyChain.FinalityMethodsDeclared | bridges/primitives/chain-ruby/src/lib.rs:127-132 | `rubyFinalityApi` has no underscore and declares `best_finalized` and `is_known_header` |
| RubyChain.OutboundLaneMethodsDeclared | bridges/primitives/chain-ruby/src/lib.rs:138-166 | `TorubyOutboundLaneApi` has no underscore and declares the four methods named by constants |
| RubyChain.InboundLaneMethodsDeclared | bridges/primitives/chain-ruby/src/lib.rs:172-179 | `FromrubyInboundLaneApi` has no underscore and declares the three methods named by constants |
| RubyChain.BestFinalizedSpelled | bridges/primitives/chain-ruby/src/lib.rs:94 | the constant `rubyFinalityApi_best_finalized` is its trait's name, an underscore and the method's name |
| RubyChain.IsKnownHeaderSpelled | bridges/primitives/chain-ruby/src/lib.rs:96 | the constant `rubyFinalityApi_is_known_header` is its trait's name, an underscore and the method's name |
| RubyChain.EstimateFeeSpelled | bridges/primitives/chain-ruby/src/lib.rs:99-100 | the constant `TorubyOutboundLaneApi_estimate_message_delivery_and_dispatch_fee` is its trait's name, an underscore and the method's name |
| RubyChain.MessageDetailsSpelled | bridges/primitives/chain-ruby/src/lib.rs:102 | the constant `TorubyOutboundLaneApi_message_details` is its trait's name, an underscore and the method's name |
| RubyChain.LatestGeneratedNonceSpelled | bridges/primitives/chain-ruby/src/lib.rs:104 | the constant `TorubyOutboundLaneApi_latest_generated_nonce` is its trait's name, an underscore and the method's name |
| RubyChain.OutboundLatestReceivedNonceSpelled | bridges/primitives/chain-ruby/src/lib.rs:106 | the constant `TorubyOutboundLaneApi_latest_received_nonce` is its trait's name, an underscore and the method's name |
| RubyChain.InboundLatestReceivedNonceSpelled | bridges/primitives/chain-ruby/src/lib.rs:109 | the constant `FromrubyInboundLaneApi_latest_received_nonce` is its trait's name, an underscore and the method's name |
| RubyChain.LatestConfirmedNonceSpelled | bridges/primitives/chain-ruby/src/lib.rs:111 | the constant `FromrubyInboundLaneApi_latest_confirmed_nonce` is its trait's name, an underscore and the method's name |
| RubyChain.UnrewardedRelayersStateSpelled | bridges/primitives/chain-ruby/src/lib.rs:113 | the constant `FromrubyInboundLaneApi_unrewarded_relayers_state` is its trait's name, an underscore and the method's name |
| RubyChain.MethodNamesResolve | bridges/primitives/chain-ruby/src/lib.rs:93-113 | each of the nine method-name constants, as literally written, resolves to its own trait and a method that trait declares |
| RubyChain.MessageDetailsFromStored | bridges/primitives/chain-ruby/src/lib.rs:152-161 | the reference answer holds only stored messages, with nonces in the requested range |
| RubyChain.MessageDetailsFromAscending | bridges/primitives/chain-ruby/src/lib.rs:152-161 | the reference answer is ordered by nonce |
| RubyChain.MessageDetailsFromCovers | bridges/primitives/chain-ruby/src/lib.rs:152-161 | every stored message in the range is in the reference answer; missing ones are simply absent |
| RubyChain.MessageDetailsInMeetsContract | bridges/primitives/chain-ruby/src/lib.rs:152-161 | the reference answer keeps the whole `message_details` promise |
| RubyChain.MessageDetailsContractUnique | bridges/primitives/chain-ruby/src/lib.rs:152-161 | the promise admits exactly one answer, so any implementation keeping it returns the reference answer |
| RubyChain.FeeEstimateDecides | bridges/primitives/chain-ruby/src/lib.rs:139-151 | when paying more never hurts, a fee is accepted exactly when an estimate exists and the fee is at least the estimate |
| RubyChain.FeeEstimateUnique | bridges/primitives/chain-ruby/src/lib.rs:139-151 | at most one estimate (`None` when too expensive, else the lowest accepted fee) keeps the promise |
| TitanMessagesToWococo.MaxMessagesSizeInSingleBatch | bridges/relays/bin-substrate/src/chains/titan_messages_to_wococo.rs:151-152 | the size cap is the largest value whose triple fits in the maximal extrinsic size |
| TitanMessagesToWococo.Halve | bridges/relays/bin-substrate/src/chains/titan_messages_to_wococo.rs:160-163 | the halved limit is the largest value whose double fits in the limit |
| TitanMessagesToWococo.HalveBounds | bridges/relays/bin-substrate/src/chains/titan_messages_to_wococo.rs:160-163 | halving never raises a limit, and yields zero exactly for limits below two |
| TitanMessagesToWococo.DeliveryParams | bridges/relays/bin-substrate/src/chains/titan_messages_to_wococo.rs:151-192 | the entry and unconfirmed-nonce limits are Wococo's inbound-lane constants, the mode is altruistic, the size cap is a third of the extrinsic size, and count and weight caps are half the selected limits |
| TitanMessagesToWococo.DeliveryParamsWithinSelectedLimits | bridges/relays/bin-substrate/src/chains/titan_messages_to_wococo.rs:153-163 | the final caps never exceed what the selector returned or the extrinsic size |
| TitanMessagesToWococo.Run | bridges/relays/bin-substrate/src/chains/titan_messages_to_wococo.rs:135-207 | 300-second stall timeout, titan's 6-second tick for the source and Wococo's for the target, the delivery parameters above, the source client told `WOCOCO_CHAIN_ID` and the target client titan's id, and the lane's relayer id the source signer's key |
| TitanMessagesToWococo.ClientsFaceEachOther | bridges/relays/bin-substrate/src/chains/titan_messages_to_wococo.rs:194-207 | the two clients are given different bridged-chain ids |
| TitanMessagesToWococo.NonceRangeSize | bridges/relays/bin-substrate/src/chains/titan_messages_to_wococo.rs:103 | an inclusive nonce range has `end - start + 1` members |
| TitanMessagesToWococo.MessagesCount | bridges/relays/bin-substrate/src/chains/titan_messages_to_wococo.rs:103-109 | the count is always the size of the proof's nonce range modulo 2^32, and exactly that size when the range is well formed and fits in a `u32` |
| TitanMessagesToWococo.MessagesCountIsRangeSize | bridges/relays/bin-substrate/src/chains/titan_messages_to_wococo.rs:97-103 | for a well-formed proof the count is the number of nonces the proof covers |
| TitanMessagesToWococo.SourceTransactionsAuthor | bridges/relays/bin-substrate/src/chains/titan_messages_to_wococo.rs:57-59 | the author is the public key of the titan signing pair, which signs every confirmation transaction |
| TitanMessagesToWococo.TargetTransactionsAuthor | bridges/relays/bin-substrate/src/chains/titan_messages_to_wococo.rs:86-88 | the author is the public key of the Wococo signing pair, which signs every delivery transaction |
| TitanMessagesToWococo.MakeMessagesDeliveryTransaction | bridges/relays/bin-substrate/src/chains/titan_messages_to_wococo.rs:90-123 | signed by the target signer against Wococo's genesis; the call encodes as `[43, 5]`, relayer id, proof, count of the proof's own range, dispatch weight |
| TitanMessagesToWococo.DeliveryTransactionDecodes | bridges/relays/bin-substrate/src/chains/titan_messages_to_wococo.rs:90-123 | Wococo reads the call back as that `receive_messages_proof`, and neither the header nor the nonce range passed in changes the result |
| TitanMessagesToWococo.MakeMessagesReceivingProofTransaction | bridges/relays/bin-substrate/src/chains/titan_messages_to_wococo.rs:61-84 | signed by the source signer against titan's genesis; the call encodes as `[44, 6]`, then the proof, then the relayers state (the pair received is swapped) |
| TitanMessagesToWococo.ReceivingProofTransactionDecodes | bridges/relays/bin-substrate/src/chains/titan_messages_to_wococo.rs:61-84 | titan reads the call back with the proof first and the relayers state second, and the block passed in does not change the result |

## Left out

- The message-lane loop, the finality pipeline and `select_delivery_transaction_limits` are not part of this model. The selector is a function-typed parameter of `TitanMessagesToWococo.DeliveryParams`, and the loop only receives the modelled setup.
- Signing, signature verification and hashing are out of scope because they are foreign cryptography. This covers sr25519 `sign_transaction`, `signature.verify`, BLAKE2 `hash()`, `derive_account_id`, `AccountIdConverter` and `account_ownership_digest`. Verification is a parameter; the others are datatype terms of their arguments.
- The encoding of the signed transaction (`transaction.encode()`) and the trace logging are not modelled. The builders return the unsigned content: genesis hash, signer, nonce and call.
- The byte layouts of structures defined in crates outside this model are not modelled. These are the header, GRANDPA justification, initialization data, message payload, delivery proof and unrewarded-relayers state. Each travels as an opaque `Vec<u8>`-framed value, so their round trips are exact but their inner fields are not modelled.
- The messages proof is laid out as header hash, storage proof (`Vec<Vec<u8>>`), lane, first nonce, last nonce. Its definition is in a crate outside this model, and this layout is the usual field order, not a copied one.
- The byte values of the chain ids are not modelled. They are two distinct constants of a datatype. Titan's chain id is spelled `TITAN_CHAIN_ID` in the client and `titan_CHAIN_ID` in the relay and chain primitives; both are taken to be the same constant.
- The numeric values of Wococo's constants are inputs of `TitanMessagesToWococo.Run`: maximal extrinsic size and weight, the inbound-lane limits and the block interval. So is `RECONNECT_DELAY`. They live in crates outside this model.
- TitanMessagesToWococo.MessagesCount: models the release build, where `nonces_end - nonces_start + 1` wraps on `u64`. A debug build panics instead in two cases. The subtraction underflows when `nonces_start > nonces_end`. The `+ 1` overflows when `nonces_start == 0` and `nonces_end == u64::MAX`.
- TitanMessagesToWococo.MakeMessagesDeliveryTransaction: the transaction nonce is an unbounded natural, because the chains' index type is defined outside this model.
- RubyChain.DerivedAccountsDistinct: collision-freedom of `derive_account_id` and of the account converter is assumed, because both are modelled as free datatype constructors. The lemma's conclusion therefore rests on that assumption, not on any property of the real hash.
- PrimitivesV0.DecodeStatementFrom: after a wrong magic the cursor is stated to have consumed exactly the four magic bytes. After any other failure its position is left unspecified.
- The runtime-API implementations are not part of this model. For `message_details` and `estimate_message_delivery_and_dispatch_fee` the model states the documented promise and proves that it determines the answer. `best_finalized`, `is_known_header` and the nonce and relayer-state queries carry no promise beyond their names.
- `SESSION_LENGTH` is not modelled, because `time_units::MINUTES` is not part of this model.
- The `Dispatchable` implementations are not modelled; they only panic.
- `AttestedCandidate` is not modelled, and neither is the `ParachainHost` API declaration; they are declarations without behaviour. The `signature()` accessor of `ValidityAttestation` is the datatype's field.
- PrimitivesV0.ComputeMessageFee: `n_bytes` is a `usize`, modelled as a 64-bit unsigned value. The `debug_assert!` on type sizes is not modelled.
- The candidate receipt hash (`BlakeTwo256::hash_of`) is not modelled.
- The CLI, node bootstrap, weight tables, relay guards and error-plumbing files are not part of this model. They are I/O, generated data or glue.
