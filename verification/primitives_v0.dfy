/**
 * Relay-chain primitives for parachain candidates (version 0): the message fee
 * schedule, the payload a collator signs, the backing-statement codec with its
 * "BKNG" magic, the candidate receipt and its abridged form, the projections
 * between them, their ordering, and the payload behind a validity attestation.
 */
module PrimitivesV0 {
  import opened Scale

  type Hash = h: Bytes | |h| == 32 witness seq(32, _ => 0)
  type CandidateHash = Hash
  /** A para id, `Id(u32)`. */
  type ParaId = u32
  type BlockNumber = u32
  type SessionIndex = u32
  type Balance = u128

  // Opaque byte-level values: their inner structure plays no part here.
  type HeadData = Bytes
  type CollatorId = Bytes
  type CollatorSignature = Bytes
  type ValidatorSignature = Bytes
  type UpwardMessage = Bytes
  type ValidationCode = Bytes

  // ---------------------------------------------------------------------------
  // Message fees

  const BALANCE_MAX: u128 := U128_LIMIT - 1

  function Min(a: int, b: int): int
  {
    if a <= b then a else b
  }

  /** `u128::saturating_add`. */
  function SaturatingAdd(a: u128, b: u128): u128
  {
    if a + b <= BALANCE_MAX then a + b else BALANCE_MAX
  }

  /** `u128::saturating_mul`. */
  function SaturatingMul(a: u128, b: u128): u128
  {
    if a * b <= BALANCE_MAX then a * b else BALANCE_MAX
  }

  /** A fee that is linear in the number of bytes of a message. */
  datatype FeeSchedule = FeeSchedule(base: Balance, per_byte: Balance)

  /**
   * The fee for a message of `n_bytes` bytes. `usize` is at most 64 bits wide,
   * so widening it to `Balance` loses nothing; both operations saturate.
   */
  function ComputeMessageFee(schedule: FeeSchedule, n_bytes: u64): (fee: Balance)
    ensures fee == Min(schedule.base + n_bytes * schedule.per_byte, BALANCE_MAX)
    ensures schedule.base <= fee
  {
    SaturatingAdd(schedule.base, SaturatingMul(n_bytes, schedule.per_byte))
  }

  lemma MulMonotone(a: nat, b: nat, c: nat)
    requires a <= b
    ensures a * c <= b * c
  {
    assert b * c == a * c + (b - a) * c;
  }

  /** A longer message never costs less under the same schedule. */
  lemma FeeMonotone(schedule: FeeSchedule, n1: u64, n2: u64)
    requires n1 <= n2
    ensures ComputeMessageFee(schedule, n1) <= ComputeMessageFee(schedule, n2)
  {
    MulMonotone(n1, n2, schedule.per_byte);
  }

  // ---------------------------------------------------------------------------
  // The collator signature payload

  /** The 68 bytes a collator signs: relay parent, para id as a little-endian `u32`, PoV hash. */
  function CollatorPayload(relay_parent: Hash, para: ParaId, pov_block_hash: Hash): (r: Bytes)
    ensures |r| == 68
  {
    relay_parent + EncodeU32(para) + pov_block_hash
  }

  /** Splits a 68-byte payload back into its three parts. */
  function ParseCollatorPayload(payload: Bytes): (Hash, ParaId, Hash)
    requires |payload| == 68
  {
    Pow256Widths();
    (payload[..32], LeValue(payload[32..36]), payload[36..])
  }

  lemma CollatorPayloadParses(relay_parent: Hash, para: ParaId, pov_block_hash: Hash)
    ensures ParseCollatorPayload(CollatorPayload(relay_parent, para, pov_block_hash))
         == (relay_parent, para, pov_block_hash)
  {
    Pow256Widths();
    var p := CollatorPayload(relay_parent, para, pov_block_hash);
    assert p[..32] == relay_parent;
    assert p[32..36] == EncodeU32(para);
    assert p[36..] == pov_block_hash;
    LeValueOfBytes(para, 4);
  }

  /** Distinct (relay parent, para, PoV hash) triples never share a payload. */
  lemma CollatorPayloadInjective(rp1: Hash, para1: ParaId, pov1: Hash, rp2: Hash, para2: ParaId, pov2: Hash)
    requires CollatorPayload(rp1, para1, pov1) == CollatorPayload(rp2, para2, pov2)
    ensures rp1 == rp2 && para1 == para2 && pov1 == pov2
  {
    CollatorPayloadParses(rp1, para1, pov1);
    CollatorPayloadParses(rp2, para2, pov2);
  }

  /** `dst[start..start + src.len()].copy_from_slice(src)`. */
  method CopyFromSlice(dst: array<byte>, start: nat, src: Bytes)
    requires start + |src| <= dst.Length
    modifies dst
    ensures dst[..] == old(dst[..start]) + src + old(dst[start + |src|..])
  {
    for i := 0 to |src|
      invariant forall k :: 0 <= k < dst.Length ==>
        dst[k] == if start <= k < start + i then src[k - start] else old(dst[k])
    {
      dst[start + i] := src[i];
    }
  }

  /** Fills a zeroed 68-byte buffer with the three parts in place. */
  method CollatorSignaturePayload(relay_parent: Hash, para: ParaId, pov_block_hash: Hash)
    returns (payload: array<byte>)
    ensures payload.Length == 68
    ensures payload[..] == CollatorPayload(relay_parent, para, pov_block_hash)
  {
    payload := new byte[68](_ => 0);
    CopyFromSlice(payload, 0, relay_parent);
    CopyFromSlice(payload, 32, EncodeU32(para));
    CopyFromSlice(payload, 36, pov_block_hash);
  }

  /** `signature.verify(payload, collator)`: a signature scheme outside this model. */
  type Verifier = (Bytes, CollatorId, CollatorSignature) -> bool

  /** A 68-byte payload is determined by the three parts it splits into. */
  lemma PayloadFromParts(payload: Bytes)
    requires |payload| == 68
    ensures var (relay_parent, para, pov_block_hash) := ParseCollatorPayload(payload);
            payload == CollatorPayload(relay_parent, para, pov_block_hash)
  {
    Pow256Widths();
    LeBytesOfValue(payload[32..36]);
    assert payload == payload[..32] + payload[32..36] + payload[36..];
  }

  /**
   * `check_collator_signature`: the verdict is the signature check over the one
   * 68-byte payload whose parts are the given relay parent, para id and PoV hash.
   */
  function CheckCollatorSignature(verify: Verifier, relay_parent: Hash, para: ParaId,
                                  pov_block_hash: Hash, collator: CollatorId,
                                  signature: CollatorSignature): (ok: bool)
    ensures forall payload: Bytes | |payload| == 68 && ParseCollatorPayload(payload) == (relay_parent, para, pov_block_hash)
              :: ok <==> verify(payload, collator, signature)
  {
    var ok := verify(CollatorPayload(relay_parent, para, pov_block_hash), collator, signature);
    assert forall payload: Bytes | |payload| == 68 && ParseCollatorPayload(payload) == (relay_parent, para, pov_block_hash)
             :: payload == CollatorPayload(relay_parent, para, pov_block_hash) by {
      forall payload: Bytes | |payload| == 68 && ParseCollatorPayload(payload) == (relay_parent, para, pov_block_hash)
        ensures payload == CollatorPayload(relay_parent, para, pov_block_hash)
      {
        PayloadFromParts(payload);
      }
    }
    ok
  }

  // ---------------------------------------------------------------------------
  // Backing statements

  /** "BKNG": the domain-separation prefix of every encoded statement. */
  const BACKING_STATEMENT_MAGIC: Bytes := [0x42, 0x4B, 0x4E, 0x47]

  /** The statements validators sign about a parachain candidate. */
  datatype CompactStatement = Seconded(hash: CandidateHash) | Valid(hash: CandidateHash)

  /** The SCALE variant index of the inner codec enum: 1 for `Seconded`, 2 for `Valid`. */
  function StatementIndex(s: CompactStatement): byte
  {
    if s.Seconded? then 1 else 2
  }

  function EncodeStatement(s: CompactStatement): (r: Bytes)
    ensures |r| == 37 && r[..4] == BACKING_STATEMENT_MAGIC
  {
    BACKING_STATEMENT_MAGIC + [StatementIndex(s)] + s.hash
  }

  /**
   * The derived decoder of the inner enum: index 1 or 2, then the 32-byte
   * hash. Any other index is refused, and whatever is accepted is the index
   * and hash of the returned statement followed by the untouched rest.
   */
  function DecodeStatementInner(b: Bytes): (r: Result<(CompactStatement, Bytes)>)
    ensures |b| > 0 && b[0] != 1 && b[0] != 2 ==> r == Err(UnknownVariant(b[0]))
    ensures r.Ok? ==> b == [StatementIndex(r.value.0)] + r.value.0.hash + r.value.1
  {
    if |b| == 0 then Err(NotEnoughData)
    else if b[0] != 1 && b[0] != 2 then Err(UnknownVariant(b[0]))
    else if |b| < 33 then Err(NotEnoughData)
    else if b[0] == 1 then Ok((Seconded(b[1..33]), b[33..]))
    else Ok((Valid(b[1..33]), b[33..]))
  }

  /**
   * Reads the magic, then the variant index, then the 32-byte hash. Input that
   * does not start with "BKNG" is refused outright, and whatever is accepted is
   * exactly an encoded statement followed by the untouched rest.
   */
  function DecodeStatement(b: Bytes): (r: Result<(CompactStatement, Bytes)>)
    ensures 4 <= |b| && b[..4] != BACKING_STATEMENT_MAGIC ==> r == Err(InvalidMagic)
    ensures r.Ok? ==> b == EncodeStatement(r.value.0) + r.value.1
  {
    if |b| < 4 then Err(NotEnoughData)
    else if b[..4] != BACKING_STATEMENT_MAGIC then Err(InvalidMagic)
    else
      var r := DecodeStatementInner(b[4..]);
      assert r.Ok? ==> b == b[..4] + [b[4]] + b[5..37] + b[37..];
      r
  }

  lemma StatementRoundTrip(s: CompactStatement, rest: Bytes)
    ensures DecodeStatement(EncodeStatement(s) + rest) == Ok((s, rest))
  {
    var b := EncodeStatement(s) + rest;
    assert b[..4] == BACKING_STATEMENT_MAGIC;
    assert b[4..][0] == StatementIndex(s);
    assert b[4..][1..33] == s.hash;
    assert b[4..][33..] == rest;
  }

  /** The candidate a statement is about: the last 32 bytes of its encoding. */
  function CandidateHashOf(s: CompactStatement): (h: CandidateHash)
    ensures s == Seconded(h) || s == Valid(h)
    ensures EncodeStatement(s)[5..] == h
  {
    s.hash
  }

  /** `encode_to`: writes the magic, then the inner enum, into `dest`. */
  method EncodeStatementTo(s: CompactStatement, dest: Output)
    modifies dest
    ensures dest.data == old(dest.data) + EncodeStatement(s)
  {
    dest.Write(BACKING_STATEMENT_MAGIC);
    dest.Write([StatementIndex(s)]);
    dest.Write(s.hash);
  }

  /** `decode`: consumes a statement from the front of `input`. */
  method DecodeStatementFrom(input: Input) returns (r: Result<CompactStatement>)
    requires input.Valid()
    modifies input
    ensures input.Valid()
    ensures var spec := DecodeStatement(old(input.Remaining()));
      && (r.Ok? <==> spec.Ok?)
      && (r.Ok? ==> r.value == spec.value.0 && input.Remaining() == spec.value.1)
      && (r.Err? ==> r.error == spec.error)
    ensures r == Err(InvalidMagic) ==>
      4 <= |old(input.Remaining())| && input.Remaining() == old(input.Remaining())[4..]
  {
    ghost var start := input.Remaining();
    var magic := input.Read(4);
    if magic.Err? {
      return Err(magic.error);
    }
    assert input.Remaining() == start[4..];
    if magic.value != BACKING_STATEMENT_MAGIC {
      return Err(InvalidMagic);
    }
    var index := input.Read(1);
    if index.Err? {
      return Err(index.error);
    }
    var tag := index.value[0];
    if tag != 1 && tag != 2 {
      return Err(UnknownVariant(tag));
    }
    assert input.Remaining() == start[4..][1..];
    var hash := input.Read(32);
    if hash.Err? {
      return Err(hash.error);
    }
    assert hash.value == start[4..][1..33];
    assert input.Remaining() == start[4..][33..];
    r := if tag == 1 then Ok(Seconded(hash.value)) else Ok(Valid(hash.value));
  }

  /** The session and parent block a statement is signed in. */
  datatype SigningContext = SigningContext(session_index: SessionIndex, parent_hash: Hash)

  function EncodeSigningContext(context: SigningContext): (r: Bytes)
    ensures |r| == 36
  {
    EncodeU32(context.session_index) + context.parent_hash
  }

  lemma SigningContextInjective(c1: SigningContext, c2: SigningContext)
    requires EncodeSigningContext(c1) == EncodeSigningContext(c2)
    ensures c1 == c2
  {
    var e1, e2 := EncodeSigningContext(c1), EncodeSigningContext(c2);
    assert e1[..4] == EncodeU32(c1.session_index) && e2[..4] == EncodeU32(c2.session_index);
    assert e1[4..] == c1.parent_hash && e2[4..] == c2.parent_hash;
    Pow256Widths();
    LeValueOfBytes(c1.session_index, 4);
    LeValueOfBytes(c2.session_index, 4);
  }

  /** `(statement, context).encode()`: a tuple encodes as its parts in order. */
  function SigningPayload(s: CompactStatement, context: SigningContext): (r: Bytes)
    ensures |r| == 73
    ensures DecodeStatement(r) == Ok((s, EncodeSigningContext(context)))
  {
    StatementRoundTrip(s, EncodeSigningContext(context));
    EncodeStatement(s) + EncodeSigningContext(context)
  }

  /** A signing payload names its statement and its context unambiguously. */
  lemma SigningPayloadInjective(s1: CompactStatement, c1: SigningContext,
                                s2: CompactStatement, c2: SigningContext)
    requires SigningPayload(s1, c1) == SigningPayload(s2, c2)
    ensures s1 == s2 && c1 == c2
  {
    SigningContextInjective(c1, c2);
  }

  /** An implicit (by issuing) or explicit validity vote, with the validator's signature. */
  datatype ValidityAttestation =
    | Implicit(signature: ValidatorSignature)
    | Explicit(signature: ValidatorSignature)

  /** What the attestation's signature covers: `Seconded` for implicit, `Valid` for explicit. */
  function SignedPayload(attestation: ValidityAttestation, candidate_hash: CandidateHash,
                         context: SigningContext): (r: Bytes)
    ensures DecodeStatement(r) == Ok((
      if attestation.Implicit? then Seconded(candidate_hash) else Valid(candidate_hash),
      EncodeSigningContext(context)))
  {
    match attestation
    case Implicit(_) => SigningPayload(Seconded(candidate_hash), context)
    case Explicit(_) => SigningPayload(Valid(candidate_hash), context)
  }

  /** An implicit and an explicit vote on one candidate never sign the same bytes. */
  lemma AttestationKindsSeparated(sig1: ValidatorSignature, sig2: ValidatorSignature,
                                  candidate_hash: CandidateHash, context: SigningContext)
    ensures SignedPayload(Implicit(sig1), candidate_hash, context)
         != SignedPayload(Explicit(sig2), candidate_hash, context)
  {
  }

  // ---------------------------------------------------------------------------
  // Candidate receipts

  datatype GlobalValidationData = GlobalValidationData(
    max_code_size: u32,
    max_head_data_size: u32,
    block_number: BlockNumber)

  datatype LocalValidationData = LocalValidationData(
    parent_head: HeadData,
    balance: Balance,
    code_upgrade_allowed: Option<BlockNumber>)

  datatype CandidateCommitments = CandidateCommitments(
    fees: Balance,
    upward_messages: seq<UpwardMessage>,
    erasure_root: Hash,
    new_validation_code: Option<ValidationCode>,
    processed_downward_messages: u32)

  datatype CandidateReceipt = CandidateReceipt(
    parachain_index: ParaId,
    relay_parent: Hash,
    head_data: HeadData,
    collator: CollatorId,
    signature: CollatorSignature,
    pov_block_hash: Hash,
    global_validation: GlobalValidationData,
    local_validation: LocalValidationData,
    commitments: CandidateCommitments)

  /** What an abridged receipt leaves out: data the relay chain can regenerate. */
  datatype OmittedValidationData = OmittedValidationData(
    global_validation: GlobalValidationData,
    local_validation: LocalValidationData)

  datatype AbridgedCandidateReceipt = AbridgedCandidateReceipt(
    parachain_index: ParaId,
    relay_parent: Hash,
    head_data: HeadData,
    collator: CollatorId,
    signature: CollatorSignature,
    pov_block_hash: Hash,
    commitments: CandidateCommitments)

  datatype CandidateDescriptor = CandidateDescriptor(
    para_id: ParaId,
    relay_parent: Hash,
    collator: CollatorId,
    signature: CollatorSignature,
    pov_hash: Hash)

  datatype CollationInfo = CollationInfo(
    parachain_index: ParaId,
    relay_parent: Hash,
    collator: CollatorId,
    signature: CollatorSignature,
    head_data: HeadData,
    pov_block_hash: Hash)

  /** Combines an abridged receipt with the omitted data into a full receipt. */
  function Complete(abridged: AbridgedCandidateReceipt, omitted: OmittedValidationData)
    : (r: CandidateReceipt)
    ensures r.parachain_index == abridged.parachain_index && r.relay_parent == abridged.relay_parent
    ensures r.head_data == abridged.head_data && r.collator == abridged.collator
    ensures r.signature == abridged.signature && r.pov_block_hash == abridged.pov_block_hash
    ensures r.commitments == abridged.commitments
    ensures r.global_validation == omitted.global_validation
    ensures r.local_validation == omitted.local_validation
  {
    CandidateReceipt(
      abridged.parachain_index, abridged.relay_parent, abridged.head_data,
      abridged.collator, abridged.signature, abridged.pov_block_hash,
      omitted.global_validation, omitted.local_validation, abridged.commitments)
  }

  /**
   * Splits a receipt into its abridged form and the omitted validation data;
   * completing the two parts gives the receipt back.
   */
  function Abridge(receipt: CandidateReceipt)
    : (r: (AbridgedCandidateReceipt, OmittedValidationData))
    ensures r.1 == OmittedValidationData(receipt.global_validation, receipt.local_validation)
    ensures Complete(r.0, r.1) == receipt
  {
    (AbridgedCandidateReceipt(
       receipt.parachain_index, receipt.relay_parent, receipt.head_data,
       receipt.collator, receipt.signature, receipt.pov_block_hash, receipt.commitments),
     OmittedValidationData(receipt.global_validation, receipt.local_validation))
  }

  /** Abridging a completed receipt recovers both parts. */
  lemma AbridgeComplete(abridged: AbridgedCandidateReceipt, omitted: OmittedValidationData)
    ensures Abridge(Complete(abridged, omitted)) == (abridged, omitted)
  {
  }

  /** Turns collation info into an abridged receipt by supplying the commitments. */
  function IntoReceipt(info: CollationInfo, commitments: CandidateCommitments)
    : (r: AbridgedCandidateReceipt)
    ensures r.parachain_index == info.parachain_index && r.relay_parent == info.relay_parent
    ensures r.head_data == info.head_data && r.collator == info.collator
    ensures r.signature == info.signature && r.pov_block_hash == info.pov_block_hash
    ensures r.commitments == commitments
  {
    AbridgedCandidateReceipt(
      info.parachain_index, info.relay_parent, info.head_data,
      info.collator, info.signature, info.pov_block_hash, commitments)
  }

  /**
   * Keeps everything of an abridged receipt except its commitments, which
   * `IntoReceipt` can put back.
   */
  function ToCollationInfo(abridged: AbridgedCandidateReceipt): (r: CollationInfo)
    ensures IntoReceipt(r, abridged.commitments) == abridged
  {
    CollationInfo(
      abridged.parachain_index, abridged.relay_parent, abridged.collator,
      abridged.signature, abridged.head_data, abridged.pov_block_hash)
  }

  lemma CollationInfoRoundTrip(info: CollationInfo, commitments: CandidateCommitments)
    ensures ToCollationInfo(IntoReceipt(info, commitments)) == info
    ensures IntoReceipt(info, commitments).commitments == commitments
  {
  }

  /** The lightweight descriptor: para id, relay parent, collator, signature and PoV hash. */
  function ToDescriptor(abridged: AbridgedCandidateReceipt): (r: CandidateDescriptor)
    ensures r.para_id == abridged.parachain_index && r.relay_parent == abridged.relay_parent
    ensures r.collator == abridged.collator && r.signature == abridged.signature
    ensures r.pov_hash == abridged.pov_block_hash
  {
    CandidateDescriptor(
      abridged.parachain_index, abridged.relay_parent, abridged.collator,
      abridged.signature, abridged.pov_block_hash)
  }

  /**
   * The descriptor depends only on the collation info: two abridged receipts
   * have the same descriptor iff they agree on the five fields it copies, and
   * neither the head data nor the commitments change it.
   */
  lemma DescriptorKeys(a: AbridgedCandidateReceipt, b: AbridgedCandidateReceipt)
    ensures ToDescriptor(a) == ToDescriptor(b) <==>
      && a.parachain_index == b.parachain_index
      && a.relay_parent == b.relay_parent
      && a.collator == b.collator
      && a.signature == b.signature
      && a.pov_block_hash == b.pov_block_hash
    ensures ToDescriptor(a) == ToDescriptor(a.(head_data := b.head_data, commitments := b.commitments))
  {
  }

  /** `CandidateReceipt::check_signature`: the verdict on its abridged form. */
  function CheckReceiptSignature(verify: Verifier, r: CandidateReceipt): (ok: bool)
    ensures ok == CheckAbridgedSignature(verify, Abridge(r).0)
  {
    CheckCollatorSignature(verify, r.relay_parent, r.parachain_index, r.pov_block_hash,
                           r.collator, r.signature)
  }

  /** `AbridgedCandidateReceipt::check_signature`: the verdict on its collation info. */
  function CheckAbridgedSignature(verify: Verifier, a: AbridgedCandidateReceipt): (ok: bool)
    ensures ok == CheckCollationSignature(verify, ToCollationInfo(a))
  {
    CheckCollatorSignature(verify, a.relay_parent, a.parachain_index, a.pov_block_hash,
                           a.collator, a.signature)
  }

  /**
   * `CollationInfo::check_signature`: the collator's signature over the payload
   * whose parts are the info's relay parent, para id and PoV hash.
   */
  function CheckCollationSignature(verify: Verifier, c: CollationInfo): (ok: bool)
    ensures forall payload: Bytes | |payload| == 68
              && ParseCollatorPayload(payload) == (c.relay_parent, c.parachain_index, c.pov_block_hash)
              :: ok <==> verify(payload, c.collator, c.signature)
  {
    CheckCollatorSignature(verify, c.relay_parent, c.parachain_index, c.pov_block_hash,
                           c.collator, c.signature)
  }

  /** Abridging a receipt and cutting it to collation info keep the signature check's verdict. */
  lemma SignatureCheckSurvivesProjection(verify: Verifier, r: CandidateReceipt)
    ensures CheckReceiptSignature(verify, r) == CheckAbridgedSignature(verify, Abridge(r).0)
    ensures CheckAbridgedSignature(verify, Abridge(r).0)
         == CheckCollationSignature(verify, ToCollationInfo(Abridge(r).0))
  {
  }

  // ---------------------------------------------------------------------------
  // Ordering of receipts

  datatype Ordering = Less | Equal | Greater {
    function Reverse(): Ordering
    {
      match this
      case Less => Greater
      case Equal => Equal
      case Greater => Less
    }

    /** `Ordering::then_with`: the second comparison breaks a tie of the first. */
    function ThenWith(next: Ordering): Ordering
    {
      if this == Equal then next else this
    }
  }

  function CmpInt(a: int, b: int): (r: Ordering)
  {
    if a < b then Less else if a == b then Equal else Greater
  }

  /** Lexicographic order of byte strings; a proper prefix comes first. */
  function CmpBytes(a: Bytes, b: Bytes): (r: Ordering)
    ensures |a| < |b| && a == b[..|a|] ==> r == Less
    ensures |b| < |a| && b == a[..|b|] ==> r == Greater
    ensures r == Equal ==> |a| == |b|
  {
    if |a| == 0 && |b| == 0 then Equal
    else if |a| == 0 then Less
    else if |b| == 0 then Greater
    else if a[0] != b[0] then CmpInt(a[0], b[0])
    else CmpBytes(a[1..], b[1..])
  }

  lemma {:induction false} CmpBytesReverse(a: Bytes, b: Bytes)
    ensures CmpBytes(b, a) == CmpBytes(a, b).Reverse()
  {
    if |a| > 0 && |b| > 0 && a[0] == b[0] {
      CmpBytesReverse(a[1..], b[1..]);
    }
  }

  lemma {:induction false} CmpBytesEqual(a: Bytes, b: Bytes)
    ensures CmpBytes(a, b) == Equal <==> a == b
  {
    if |a| > 0 && |b| > 0 && a[0] == b[0] {
      CmpBytesEqual(a[1..], b[1..]);
      assert a == [a[0]] + a[1..] && b == [b[0]] + b[1..];
    }
  }

  lemma {:induction false} CmpBytesTransitive(a: Bytes, b: Bytes, c: Bytes)
    requires CmpBytes(a, b) == Less && CmpBytes(b, c) == Less
    ensures CmpBytes(a, c) == Less
  {
    if |a| > 0 && |b| > 0 && |c| > 0 && a[0] == b[0] && b[0] == c[0] {
      CmpBytesTransitive(a[1..], b[1..], c[1..]);
    }
  }

  /** Receipts are ordered by para id, then by head data; no other field takes part. */
  function CmpReceipts(x: CandidateReceipt, y: CandidateReceipt): (r: Ordering)
    ensures x.parachain_index < y.parachain_index ==> r == Less
    ensures x.parachain_index > y.parachain_index ==> r == Greater
    ensures x.parachain_index == y.parachain_index ==> r == CmpBytes(x.head_data, y.head_data)
  {
    CmpInt(x.parachain_index, y.parachain_index).ThenWith(CmpBytes(x.head_data, y.head_data))
  }

  /** The same order on abridged receipts: para id first, head data breaks ties. */
  function CmpAbridged(x: AbridgedCandidateReceipt, y: AbridgedCandidateReceipt): (r: Ordering)
    ensures x.parachain_index < y.parachain_index ==> r == Less
    ensures x.parachain_index > y.parachain_index ==> r == Greater
    ensures x.parachain_index == y.parachain_index ==> r == CmpBytes(x.head_data, y.head_data)
  {
    CmpInt(x.parachain_index, y.parachain_index).ThenWith(CmpBytes(x.head_data, y.head_data))
  }

  /** Two receipts tie exactly when their para ids and head data agree. */
  lemma ReceiptOrderKeys(x: CandidateReceipt, y: CandidateReceipt)
    ensures CmpReceipts(x, y) == Equal <==>
      x.parachain_index == y.parachain_index && x.head_data == y.head_data
  {
    CmpBytesEqual(x.head_data, y.head_data);
  }

  lemma ReceiptOrderReverse(x: CandidateReceipt, y: CandidateReceipt)
    ensures CmpReceipts(y, x) == CmpReceipts(x, y).Reverse()
  {
    CmpBytesReverse(x.head_data, y.head_data);
  }

  lemma ReceiptOrderTransitive(x: CandidateReceipt, y: CandidateReceipt, z: CandidateReceipt)
    requires CmpReceipts(x, y) == Less && CmpReceipts(y, z) == Less
    ensures CmpReceipts(x, z) == Less
  {
    if x.parachain_index == y.parachain_index == z.parachain_index {
      CmpBytesTransitive(x.head_data, y.head_data, z.head_data);
    }
  }

  /** Abridging keeps the order of receipts. */
  lemma AbridgedOrderAgrees(x: CandidateReceipt, y: CandidateReceipt)
    ensures CmpAbridged(Abridge(x).0, Abridge(y).0) == CmpReceipts(x, y)
  {
  }

  // ---------------------------------------------------------------------------
  // Validity errors and parachain swaps

  /** Custom transaction-validity errors, carried on the wire as one byte. */
  datatype ValidityError =
    | InvalidEthereumSignature
    | SignerHasNoClaim
    | NoPermission
    | InvalidStatement

  /** The `#[repr(u8)]` discriminant, in declaration order from 0. */
  function ValidityErrorCode(e: ValidityError): (code: byte)
    ensures code < 4
  {
    match e
    case InvalidEthereumSignature => 0
    case SignerHasNoClaim => 1
    case NoPermission => 2
    case InvalidStatement => 3
  }

  lemma ValidityErrorCodeInjective(e1: ValidityError, e2: ValidityError)
    requires ValidityErrorCode(e1) == ValidityErrorCode(e2)
    ensures e1 == e2
  {
  }

  datatype SwapResult = SwapAllowed | SwapRefused(reason: string)

  const SWAPPING_DISABLED: string := "Swapping disabled"

  /** The unit implementation of the swap hook: no two paras may ever swap. */
  function EnsureCanSwap(one: ParaId, other: ParaId): (r: SwapResult)
    ensures r == SwapRefused(SWAPPING_DISABLED)
  {
    SwapRefused(SWAPPING_DISABLED)
  }

  function OnSwap(one: ParaId, other: ParaId): (r: SwapResult)
    ensures r == SwapRefused(SWAPPING_DISABLED)
  {
    SwapRefused(SWAPPING_DISABLED)
  }

  /** The hook's contract: `on_swap` errs only where `ensure_can_swap` errs as well. */
  lemma OnSwapMeetsContract(one: ParaId, other: ParaId)
    ensures OnSwap(one, other).SwapRefused? ==> EnsureCanSwap(one, other).SwapRefused?
  {
  }
}
