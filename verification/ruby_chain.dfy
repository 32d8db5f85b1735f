/**
 * What a relay needs to know about the ruby chain: its pinned runtime version,
 * the one call it sends there (titan's GRANDPA bridge pallet), how a titan
 * account maps to a ruby account, and the runtime APIs that bridging runtimes
 * expose about ruby: the method names and the promises their results keep.
 */
module RubyChain {
  import opened Scale
  import opened BridgeCalls

  datatype RuntimeVersion = RuntimeVersion(
    spec_name: string,
    impl_name: string,
    authoring_version: u32,
    spec_version: u32,
    impl_version: u32,
    transaction_version: u32)

  /** The ruby runtime this code is kept in step with. */
  const VERSION: RuntimeVersion := RuntimeVersion("ruby", "parity-ruby", 2, 51, 0, 5)

  // ---------------------------------------------------------------------------
  // The call enum

  const BRIDGE_GRANDPA_TITAN_INDEX: byte := 40

  datatype Call = BridgeGrandpatitan(grandpa: GrandpaCall)

  function EncodeCall(c: Call): (r: Bytes)
    ensures |r| > 1 && r[0] == BRIDGE_GRANDPA_TITAN_INDEX && r[1..] == EncodeGrandpaCall(c.grandpa)
  {
    [BRIDGE_GRANDPA_TITAN_INDEX] + EncodeGrandpaCall(c.grandpa)
  }

  /** Only index 40 names a pallet here; every other leading byte is refused. */
  function DecodeCall(b: Bytes): (r: Result<(Call, Bytes)>)
    ensures r.Ok? ==> b == EncodeCall(r.value.0) + r.value.1
    ensures |b| > 0 && b[0] != BRIDGE_GRANDPA_TITAN_INDEX ==> r == Err(UnknownVariant(b[0]))
  {
    if |b| == 0 then Err(NotEnoughData)
    else if b[0] != BRIDGE_GRANDPA_TITAN_INDEX then Err(UnknownVariant(b[0]))
    else
      var inner := DecodeGrandpaCall(b[1..]);
      if inner.Err? then Err(inner.error)
      else
        var c := BridgeGrandpatitan(inner.value.0);
        IndexThenFields(b, EncodeCall(c), EncodeGrandpaCall(c.grandpa), inner.value.1);
        Ok((c, inner.value.1))
  }

  lemma CallRoundTrip(c: Call, rest: Bytes)
    ensures DecodeCall(EncodeCall(c) + rest) == Ok((c, rest))
  {
    var b := EncodeCall(c) + rest;
    assert b[1..] == EncodeGrandpaCall(c.grandpa) + rest;
    GrandpaCallRoundTrip(c.grandpa, rest);
  }

  // ---------------------------------------------------------------------------
  // Accounts

  /**
   * The ruby account that stands for a titan account: the id derived within
   * titan's chain domain, converted to a local account.
   */
  function DeriveAccountFromTitanId(id: SourceAccount): (account: ConvertedAccount)
    ensures account.derived.chain == TitanChainId && account.derived.source == id
  {
    AccountIdConverter(DeriveAccountId(TitanChainId, id))
  }

  /**
   * Distinct titan accounts map to distinct ruby accounts, and none of them is
   * the account derived for the same id in Wococo's domain (derivation and
   * conversion are taken to be collision-free).
   */
  lemma DerivedAccountsDistinct(a: SourceAccount, b: SourceAccount)
    ensures DeriveAccountFromTitanId(a) == DeriveAccountFromTitanId(b) <==> a == b
    ensures DeriveAccountFromTitanId(a) != AccountIdConverter(DeriveAccountId(WococoChainId, b))
  {
  }

  // ---------------------------------------------------------------------------
  // Runtime API method names

  /** A runtime API trait and the methods it declares, in declaration order. */
  datatype RuntimeApi = RuntimeApi(name: string, methods: seq<string>)

  const RUBY_FINALITY_API: RuntimeApi :=
    RuntimeApi("rubyFinalityApi", ["best_finalized", "is_known_header"])
  const TO_RUBY_OUTBOUND_LANE_API: RuntimeApi :=
    RuntimeApi("TorubyOutboundLaneApi",
               ["estimate_message_delivery_and_dispatch_fee", "message_details",
                "latest_received_nonce", "latest_generated_nonce"])
  const FROM_RUBY_INBOUND_LANE_API: RuntimeApi :=
    RuntimeApi("FromrubyInboundLaneApi",
               ["latest_received_nonce", "latest_confirmed_nonce", "unrewarded_relayers_state"])

  // The method-name constants, as the runtime spells them.
  const BEST_FINALIZED_ruby_HEADER_METHOD: string := "rubyFinalityApi_best_finalized"
  const IS_KNOWN_ruby_HEADER_METHOD: string := "rubyFinalityApi_is_known_header"
  const TO_ruby_ESTIMATE_MESSAGE_FEE_METHOD: string := "TorubyOutboundLaneApi_estimate_message_delivery_and_dispatch_fee"
  const TO_ruby_MESSAGE_DETAILS_METHOD: string := "TorubyOutboundLaneApi_message_details"
  const TO_ruby_LATEST_GENERATED_NONCE_METHOD: string := "TorubyOutboundLaneApi_latest_generated_nonce"
  const TO_ruby_LATEST_RECEIVED_NONCE_METHOD: string := "TorubyOutboundLaneApi_latest_received_nonce"
  const FROM_ruby_LATEST_RECEIVED_NONCE_METHOD: string := "FromrubyInboundLaneApi_latest_received_nonce"
  const FROM_ruby_LATEST_CONFIRMED_NONCE_METHOD: string := "FromrubyInboundLaneApi_latest_confirmed_nonce"
  const FROM_ruby_UNREWARDED_RELAYERS_STATE: string := "FromrubyInboundLaneApi_unrewarded_relayers_state"

  /** The runtime's name for a method of an API trait: `<trait>_<method>`. */
  function RuntimeMethodName(api: string, call_name: string): string
  {
    api + "_" + call_name
  }

  /** Splits a runtime method name at its first underscore into trait and method. */
  function SplitMethodName(name: string): (r: Option<(string, string)>)
    ensures r.Some? ==> name == RuntimeMethodName(r.value.0, r.value.1) && '_' !in r.value.0
  {
    if |name| == 0 then None
    else if name[0] == '_' then Some(("", name[1..]))
    else
      match SplitMethodName(name[1..])
      case None => None
      case Some((api, call_name)) => Some(([name[0]] + api, call_name))
  }

  /** A trait name without underscores is recovered from any of its method names. */
  lemma {:induction false} SplitRuntimeMethodName(api: string, call_name: string)
    requires '_' !in api
    ensures SplitMethodName(RuntimeMethodName(api, call_name)) == Some((api, call_name))
  {
    if |api| > 0 {
      SplitRuntimeMethodName(api[1..], call_name);
      assert RuntimeMethodName(api, call_name)[1..] == RuntimeMethodName(api[1..], call_name);
      assert [api[0]] + api[1..] == api;
    } else {
      assert RuntimeMethodName(api, call_name) == "_" + call_name;
    }
  }

  // Each method-name constant above is the source's literal; the lemmas below
  // show, position by position, that it is `<trait>_<method>` for its trait.

  lemma BestFinalizedSpelled()
    ensures BEST_FINALIZED_ruby_HEADER_METHOD == RuntimeMethodName(RUBY_FINALITY_API.name, "best_finalized")
  {
    var a := BEST_FINALIZED_ruby_HEADER_METHOD;
    var m := "best_finalized";
    var l := RuntimeMethodName(RUBY_FINALITY_API.name, m);
    assert |a| == |l|;
    forall i | 0 <= i < 16 ensures a[i] == l[i] {}
    forall i | 16 <= i < |a| ensures a[i] == l[i] {
      assert l[i] == m[i - 16];
      assert a[i] == m[i - 16];
    }
  }

  lemma IsKnownHeaderSpelled()
    ensures IS_KNOWN_ruby_HEADER_METHOD == RuntimeMethodName(RUBY_FINALITY_API.name, "is_known_header")
  {
    var a := IS_KNOWN_ruby_HEADER_METHOD;
    var m := "is_known_header";
    var l := RuntimeMethodName(RUBY_FINALITY_API.name, m);
    assert |a| == |l|;
    forall i | 0 <= i < 16 ensures a[i] == l[i] {}
    forall i | 16 <= i < |a| ensures a[i] == l[i] {
      assert l[i] == m[i - 16];
      assert a[i] == m[i - 16];
    }
  }

  lemma EstimateFeeSpelledFrom0()
    ensures |TO_ruby_ESTIMATE_MESSAGE_FEE_METHOD| == 64
    ensures forall i | 0 <= i < 22 :: TO_ruby_ESTIMATE_MESSAGE_FEE_METHOD[i] == RuntimeMethodName(TO_RUBY_OUTBOUND_LANE_API.name, "estimate_message_delivery_and_dispatch_fee")[i]
  {
    var a := TO_ruby_ESTIMATE_MESSAGE_FEE_METHOD;
    var m := "estimate_message_delivery_and_dispatch_fee";
    var l := RuntimeMethodName(TO_RUBY_OUTBOUND_LANE_API.name, m);
    assert |a| == |l| == 64;
    forall i | 0 <= i < 22 ensures a[i] == l[i] {}
  }

  lemma EstimateFeeSpelledFrom22()
    ensures |TO_ruby_ESTIMATE_MESSAGE_FEE_METHOD| == 64
    ensures forall i | 22 <= i < 26 :: TO_ruby_ESTIMATE_MESSAGE_FEE_METHOD[i] == RuntimeMethodName(TO_RUBY_OUTBOUND_LANE_API.name, "estimate_message_delivery_and_dispatch_fee")[i]
  {
    var a := TO_ruby_ESTIMATE_MESSAGE_FEE_METHOD;
    var m := "estimate_message_delivery_and_dispatch_fee";
    var l := RuntimeMethodName(TO_RUBY_OUTBOUND_LANE_API.name, m);
    assert |a| == |l| == 64;
    forall i | 22 <= i < 26 ensures a[i] == l[i] {
      assert l[i] == m[i - 22];
      assert a[i] == m[i - 22];
    }
  }

  lemma EstimateFeeSpelledFrom26()
    ensures |TO_ruby_ESTIMATE_MESSAGE_FEE_METHOD| == 64
    ensures forall i | 26 <= i < 29 :: TO_ruby_ESTIMATE_MESSAGE_FEE_METHOD[i] == RuntimeMethodName(TO_RUBY_OUTBOUND_LANE_API.name, "estimate_message_delivery_and_dispatch_fee")[i]
  {
    var a := TO_ruby_ESTIMATE_MESSAGE_FEE_METHOD;
    var m := "estimate_message_delivery_and_dispatch_fee";
    var l := RuntimeMethodName(TO_RUBY_OUTBOUND_LANE_API.name, m);
    assert |a| == |l| == 64;
    forall i | 26 <= i < 29 ensures a[i] == l[i] {
      assert l[i] == m[i - 22];
      assert a[i] == m[i - 22];
    }
  }

  lemma EstimateFeeSpelledFrom29()
    ensures |TO_ruby_ESTIMATE_MESSAGE_FEE_METHOD| == 64
    ensures forall i | 29 <= i < 36 :: TO_ruby_ESTIMATE_MESSAGE_FEE_METHOD[i] == RuntimeMethodName(TO_RUBY_OUTBOUND_LANE_API.name, "estimate_message_delivery_and_dispatch_fee")[i]
  {
    var a := TO_ruby_ESTIMATE_MESSAGE_FEE_METHOD;
    var m := "estimate_message_delivery_and_dispatch_fee";
    var l := RuntimeMethodName(TO_RUBY_OUTBOUND_LANE_API.name, m);
    assert |a| == |l| == 64;
    forall i | 29 <= i < 36 ensures a[i] == l[i] {
      assert l[i] == m[i - 22];
      assert a[i] == m[i - 22];
    }
  }

  lemma EstimateFeeSpelledFrom36()
    ensures |TO_ruby_ESTIMATE_MESSAGE_FEE_METHOD| == 64
    ensures forall i | 36 <= i < 43 :: TO_ruby_ESTIMATE_MESSAGE_FEE_METHOD[i] == RuntimeMethodName(TO_RUBY_OUTBOUND_LANE_API.name, "estimate_message_delivery_and_dispatch_fee")[i]
  {
    var a := TO_ruby_ESTIMATE_MESSAGE_FEE_METHOD;
    var m := "estimate_message_delivery_and_dispatch_fee";
    var l := RuntimeMethodName(TO_RUBY_OUTBOUND_LANE_API.name, m);
    assert |a| == |l| == 64;
    forall i | 36 <= i < 43 ensures a[i] == l[i] {
      assert l[i] == m[i - 22];
      assert a[i] == m[i - 22];
    }
  }

  lemma EstimateFeeSpelledFrom43()
    ensures |TO_ruby_ESTIMATE_MESSAGE_FEE_METHOD| == 64
    ensures forall i | 43 <= i < 50 :: TO_ruby_ESTIMATE_MESSAGE_FEE_METHOD[i] == RuntimeMethodName(TO_RUBY_OUTBOUND_LANE_API.name, "estimate_message_delivery_and_dispatch_fee")[i]
  {
    var a := TO_ruby_ESTIMATE_MESSAGE_FEE_METHOD;
    var m := "estimate_message_delivery_and_dispatch_fee";
    var l := RuntimeMethodName(TO_RUBY_OUTBOUND_LANE_API.name, m);
    assert |a| == |l| == 64;
    forall i | 43 <= i < 50 ensures a[i] == l[i] {
      assert l[i] == m[i - 22];
      assert a[i] == m[i - 22];
    }
  }

  lemma EstimateFeeSpelledFrom50()
    ensures |TO_ruby_ESTIMATE_MESSAGE_FEE_METHOD| == 64
    ensures forall i | 50 <= i < 57 :: TO_ruby_ESTIMATE_MESSAGE_FEE_METHOD[i] == RuntimeMethodName(TO_RUBY_OUTBOUND_LANE_API.name, "estimate_message_delivery_and_dispatch_fee")[i]
  {
    var a := TO_ruby_ESTIMATE_MESSAGE_FEE_METHOD;
    var m := "estimate_message_delivery_and_dispatch_fee";
    var l := RuntimeMethodName(TO_RUBY_OUTBOUND_LANE_API.name, m);
    assert |a| == |l| == 64;
    forall i | 50 <= i < 57 ensures a[i] == l[i] {
      assert l[i] == m[i - 22];
      assert a[i] == m[i - 22];
    }
  }

  lemma EstimateFeeSpelledFrom57()
    ensures |TO_ruby_ESTIMATE_MESSAGE_FEE_METHOD| == 64
    ensures forall i | 57 <= i < 64 :: TO_ruby_ESTIMATE_MESSAGE_FEE_METHOD[i] == RuntimeMethodName(TO_RUBY_OUTBOUND_LANE_API.name, "estimate_message_delivery_and_dispatch_fee")[i]
  {
    var a := TO_ruby_ESTIMATE_MESSAGE_FEE_METHOD;
    var m := "estimate_message_delivery_and_dispatch_fee";
    var l := RuntimeMethodName(TO_RUBY_OUTBOUND_LANE_API.name, m);
    assert |a| == |l| == 64;
    forall i | 57 <= i < 64 ensures a[i] == l[i] {
      assert l[i] == m[i - 22];
      assert a[i] == m[i - 22];
    }
  }

  lemma EstimateFeeSpelled()
    ensures TO_ruby_ESTIMATE_MESSAGE_FEE_METHOD == RuntimeMethodName(TO_RUBY_OUTBOUND_LANE_API.name, "estimate_message_delivery_and_dispatch_fee")
  {
    EstimateFeeSpelledFrom0();
    EstimateFeeSpelledFrom22();
    EstimateFeeSpelledFrom26();
    EstimateFeeSpelledFrom29();
    EstimateFeeSpelledFrom36();
    EstimateFeeSpelledFrom43();
    EstimateFeeSpelledFrom50();
    EstimateFeeSpelledFrom57();
  }

  lemma MessageDetailsSpelled()
    ensures TO_ruby_MESSAGE_DETAILS_METHOD == RuntimeMethodName(TO_RUBY_OUTBOUND_LANE_API.name, "message_details")
  {
    var a := TO_ruby_MESSAGE_DETAILS_METHOD;
    var m := "message_details";
    var l := RuntimeMethodName(TO_RUBY_OUTBOUND_LANE_API.name, m);
    assert |a| == |l|;
    forall i | 0 <= i < 22 ensures a[i] == l[i] {}
    forall i | 22 <= i < |a| ensures a[i] == l[i] {
      assert l[i] == m[i - 22];
      assert a[i] == m[i - 22];
    }
  }

  lemma LatestGeneratedNonceSpelled()
    ensures TO_ruby_LATEST_GENERATED_NONCE_METHOD == RuntimeMethodName(TO_RUBY_OUTBOUND_LANE_API.name, "latest_generated_nonce")
  {
    var a := TO_ruby_LATEST_GENERATED_NONCE_METHOD;
    var m := "latest_generated_nonce";
    var l := RuntimeMethodName(TO_RUBY_OUTBOUND_LANE_API.name, m);
    assert |a| == |l|;
    forall i | 0 <= i < 22 ensures a[i] == l[i] {}
    forall i | 22 <= i < |a| ensures a[i] == l[i] {
      assert l[i] == m[i - 22];
      assert a[i] == m[i - 22];
    }
  }

  lemma OutboundLatestReceivedNonceSpelled()
    ensures TO_ruby_LATEST_RECEIVED_NONCE_METHOD == RuntimeMethodName(TO_RUBY_OUTBOUND_LANE_API.name, "latest_received_nonce")
  {
    var a := TO_ruby_LATEST_RECEIVED_NONCE_METHOD;
    var m := "latest_received_nonce";
    var l := RuntimeMethodName(TO_RUBY_OUTBOUND_LANE_API.name, m);
    assert |a| == |l|;
    forall i | 0 <= i < 22 ensures a[i] == l[i] {}
    forall i | 22 <= i < |a| ensures a[i] == l[i] {
      assert l[i] == m[i - 22];
      assert a[i] == m[i - 22];
    }
  }

  lemma InboundLatestReceivedNonceSpelled()
    ensures FROM_ruby_LATEST_RECEIVED_NONCE_METHOD == RuntimeMethodName(FROM_RUBY_INBOUND_LANE_API.name, "latest_received_nonce")
  {
    var a := FROM_ruby_LATEST_RECEIVED_NONCE_METHOD;
    var m := "latest_received_nonce";
    var l := RuntimeMethodName(FROM_RUBY_INBOUND_LANE_API.name, m);
    assert |a| == |l|;
    forall i | 0 <= i < 23 ensures a[i] == l[i] {}
    forall i | 23 <= i < |a| ensures a[i] == l[i] {
      assert l[i] == m[i - 23];
      assert a[i] == m[i - 23];
    }
  }

  lemma LatestConfirmedNonceSpelled()
    ensures FROM_ruby_LATEST_CONFIRMED_NONCE_METHOD == RuntimeMethodName(FROM_RUBY_INBOUND_LANE_API.name, "latest_confirmed_nonce")
  {
    var a := FROM_ruby_LATEST_CONFIRMED_NONCE_METHOD;
    var m := "latest_confirmed_nonce";
    var l := RuntimeMethodName(FROM_RUBY_INBOUND_LANE_API.name, m);
    assert |a| == |l|;
    forall i | 0 <= i < 23 ensures a[i] == l[i] {}
    forall i | 23 <= i < |a| ensures a[i] == l[i] {
      assert l[i] == m[i - 23];
      assert a[i] == m[i - 23];
    }
  }

  lemma UnrewardedRelayersStateSpelledFrom0()
    ensures |FROM_ruby_UNREWARDED_RELAYERS_STATE| == 48
    ensures forall i | 0 <= i < 23 :: FROM_ruby_UNREWARDED_RELAYERS_STATE[i] == RuntimeMethodName(FROM_RUBY_INBOUND_LANE_API.name, "unrewarded_relayers_state")[i]
  {
    var a := FROM_ruby_UNREWARDED_RELAYERS_STATE;
    var m := "unrewarded_relayers_state";
    var l := RuntimeMethodName(FROM_RUBY_INBOUND_LANE_API.name, m);
    assert |a| == |l| == 48;
    forall i | 0 <= i < 23 ensures a[i] == l[i] {}
  }

  lemma UnrewardedRelayersStateSpelledFrom23()
    ensures |FROM_ruby_UNREWARDED_RELAYERS_STATE| == 48
    ensures forall i | 23 <= i < 30 :: FROM_ruby_UNREWARDED_RELAYERS_STATE[i] == RuntimeMethodName(FROM_RUBY_INBOUND_LANE_API.name, "unrewarded_relayers_state")[i]
  {
    var a := FROM_ruby_UNREWARDED_RELAYERS_STATE;
    var m := "unrewarded_relayers_state";
    var l := RuntimeMethodName(FROM_RUBY_INBOUND_LANE_API.name, m);
    assert |a| == |l| == 48;
    forall i | 23 <= i < 30 ensures a[i] == l[i] {
      assert l[i] == m[i - 23];
      assert a[i] == m[i - 23];
    }
  }

  lemma UnrewardedRelayersStateSpelledFrom30()
    ensures |FROM_ruby_UNREWARDED_RELAYERS_STATE| == 48
    ensures forall i | 30 <= i < 37 :: FROM_ruby_UNREWARDED_RELAYERS_STATE[i] == RuntimeMethodName(FROM_RUBY_INBOUND_LANE_API.name, "unrewarded_relayers_state")[i]
  {
    var a := FROM_ruby_UNREWARDED_RELAYERS_STATE;
    var m := "unrewarded_relayers_state";
    var l := RuntimeMethodName(FROM_RUBY_INBOUND_LANE_API.name, m);
    assert |a| == |l| == 48;
    forall i | 30 <= i < 37 ensures a[i] == l[i] {
      assert l[i] == m[i - 23];
      assert a[i] == m[i - 23];
    }
  }

  lemma UnrewardedRelayersStateSpelledFrom37()
    ensures |FROM_ruby_UNREWARDED_RELAYERS_STATE| == 48
    ensures forall i | 37 <= i < 48 :: FROM_ruby_UNREWARDED_RELAYERS_STATE[i] == RuntimeMethodName(FROM_RUBY_INBOUND_LANE_API.name, "unrewarded_relayers_state")[i]
  {
    var a := FROM_ruby_UNREWARDED_RELAYERS_STATE;
    var m := "unrewarded_relayers_state";
    var l := RuntimeMethodName(FROM_RUBY_INBOUND_LANE_API.name, m);
    assert |a| == |l| == 48;
    forall i | 37 <= i < 48 ensures a[i] == l[i] {
      assert l[i] == m[i - 23];
      assert a[i] == m[i - 23];
    }
  }

  lemma UnrewardedRelayersStateSpelled()
    ensures FROM_ruby_UNREWARDED_RELAYERS_STATE == RuntimeMethodName(FROM_RUBY_INBOUND_LANE_API.name, "unrewarded_relayers_state")
  {
    UnrewardedRelayersStateSpelledFrom0();
    UnrewardedRelayersStateSpelledFrom23();
    UnrewardedRelayersStateSpelledFrom30();
    UnrewardedRelayersStateSpelledFrom37();
  }

  /** The method of `api` that `name` refers to, if any. */
  predicate NamesMethodOf(api: RuntimeApi, name: string)
  {
    var split := SplitMethodName(name);
    split.Some? && split.value.0 == api.name && split.value.1 in api.methods
  }

  /** A name built from a declared method of an underscore-free trait resolves to that method. */
  lemma DeclaredMethodResolves(api: RuntimeApi, call_name: string)
    requires '_' !in api.name && call_name in api.methods
    ensures NamesMethodOf(api, RuntimeMethodName(api.name, call_name))
  {
    SplitRuntimeMethodName(api.name, call_name);
  }

  /** The finality API's trait name has no underscore and declares both of its named methods. */
  lemma FinalityMethodsDeclared()
    ensures '_' !in RUBY_FINALITY_API.name
    ensures "best_finalized" in RUBY_FINALITY_API.methods
    ensures "is_known_header" in RUBY_FINALITY_API.methods
  {
  }

  /** The outbound-lane API's trait name has no underscore and declares its four named methods. */
  lemma OutboundLaneMethodsDeclared()
    ensures '_' !in TO_RUBY_OUTBOUND_LANE_API.name
    ensures "estimate_message_delivery_and_dispatch_fee" in TO_RUBY_OUTBOUND_LANE_API.methods
    ensures "message_details" in TO_RUBY_OUTBOUND_LANE_API.methods
    ensures "latest_generated_nonce" in TO_RUBY_OUTBOUND_LANE_API.methods
    ensures "latest_received_nonce" in TO_RUBY_OUTBOUND_LANE_API.methods
  {
  }

  /** The inbound-lane API's trait name has no underscore and declares its three named methods. */
  lemma InboundLaneMethodsDeclared()
    ensures '_' !in FROM_RUBY_INBOUND_LANE_API.name
    ensures "latest_received_nonce" in FROM_RUBY_INBOUND_LANE_API.methods
    ensures "latest_confirmed_nonce" in FROM_RUBY_INBOUND_LANE_API.methods
    ensures "unrewarded_relayers_state" in FROM_RUBY_INBOUND_LANE_API.methods
  {
  }

  /** Each method-name constant resolves to its own trait and a method that trait declares. */
  lemma MethodNamesResolve()
    ensures NamesMethodOf(RUBY_FINALITY_API, BEST_FINALIZED_ruby_HEADER_METHOD)
    ensures NamesMethodOf(RUBY_FINALITY_API, IS_KNOWN_ruby_HEADER_METHOD)
    ensures NamesMethodOf(TO_RUBY_OUTBOUND_LANE_API, TO_ruby_ESTIMATE_MESSAGE_FEE_METHOD)
    ensures NamesMethodOf(TO_RUBY_OUTBOUND_LANE_API, TO_ruby_MESSAGE_DETAILS_METHOD)
    ensures NamesMethodOf(TO_RUBY_OUTBOUND_LANE_API, TO_ruby_LATEST_GENERATED_NONCE_METHOD)
    ensures NamesMethodOf(TO_RUBY_OUTBOUND_LANE_API, TO_ruby_LATEST_RECEIVED_NONCE_METHOD)
    ensures NamesMethodOf(FROM_RUBY_INBOUND_LANE_API, FROM_ruby_LATEST_RECEIVED_NONCE_METHOD)
    ensures NamesMethodOf(FROM_RUBY_INBOUND_LANE_API, FROM_ruby_LATEST_CONFIRMED_NONCE_METHOD)
    ensures NamesMethodOf(FROM_RUBY_INBOUND_LANE_API, FROM_ruby_UNREWARDED_RELAYERS_STATE)
  {
    BestFinalizedSpelled();
    IsKnownHeaderSpelled();
    EstimateFeeSpelled();
    MessageDetailsSpelled();
    LatestGeneratedNonceSpelled();
    OutboundLatestReceivedNonceSpelled();
    InboundLatestReceivedNonceSpelled();
    LatestConfirmedNonceSpelled();
    UnrewardedRelayersStateSpelled();
    FinalityMethodsDeclared();
    OutboundLaneMethodsDeclared();
    InboundLaneMethodsDeclared();
    DeclaredMethodResolves(RUBY_FINALITY_API, "best_finalized");
    DeclaredMethodResolves(RUBY_FINALITY_API, "is_known_header");
    DeclaredMethodResolves(TO_RUBY_OUTBOUND_LANE_API, "estimate_message_delivery_and_dispatch_fee");
    DeclaredMethodResolves(TO_RUBY_OUTBOUND_LANE_API, "message_details");
    DeclaredMethodResolves(TO_RUBY_OUTBOUND_LANE_API, "latest_generated_nonce");
    DeclaredMethodResolves(TO_RUBY_OUTBOUND_LANE_API, "latest_received_nonce");
    DeclaredMethodResolves(FROM_RUBY_INBOUND_LANE_API, "latest_received_nonce");
    DeclaredMethodResolves(FROM_RUBY_INBOUND_LANE_API, "latest_confirmed_nonce");
    DeclaredMethodResolves(FROM_RUBY_INBOUND_LANE_API, "unrewarded_relayers_state");
  }

  // ---------------------------------------------------------------------------
  // `message_details`: what the answer must be

  type MessageNonce = u64
  type Weight = u64
  type Balance = u128

  /** Dispatch weight, encoded payload size and fee of one outbound message. */
  datatype MessageDetails = MessageDetails(
    nonce: MessageNonce,
    dispatch_weight: Weight,
    size: u32,
    delivery_and_dispatch_fee: Balance)

  /** An outbound lane's stored messages; each entry is filed under its own nonce. */
  type LaneMessages = m: map<MessageNonce, MessageDetails> | forall n :: n in m ==> m[n].nonce == n

  /** Every entry of the answer is a stored message with a nonce in `begin..=end`. */
  predicate StoredInRange(stored: LaneMessages, begin: int, end: int, answer: seq<MessageDetails>)
  {
    forall i :: 0 <= i < |answer| ==>
      begin <= answer[i].nonce <= end && answer[i].nonce in stored && stored[answer[i].nonce] == answer[i]
  }

  predicate AscendingNonces(answer: seq<MessageDetails>)
  {
    forall i, j :: 0 <= i < j < |answer| ==> answer[i].nonce < answer[j].nonce
  }

  /** Every stored message with a nonce in `begin..=end` is in the answer. */
  predicate CoversStored(stored: LaneMessages, begin: int, end: int, answer: seq<MessageDetails>)
  {
    forall n :: begin <= n <= end && n in stored ==> exists i :: 0 <= i < |answer| && answer[i].nonce == n
  }

  /**
   * The promise of `message_details(lane, begin, end)`: only stored messages
   * with nonces in the inclusive range, ordered by nonce, and every stored
   * message in the range present (a missing one is simply absent).
   */
  predicate MessageDetailsContract(stored: LaneMessages, begin: int, end: int, answer: seq<MessageDetails>)
  {
    StoredInRange(stored, begin, end, answer) && AscendingNonces(answer) && CoversStored(stored, begin, end, answer)
  }

  /** The stored messages with nonces `from..=end`, in nonce order. */
  function MessageDetailsFrom(stored: LaneMessages, from: nat, end: MessageNonce): (r: seq<MessageDetails>)
    decreases end + 1 - from
  {
    if from > end then []
    else
      var nonce: MessageNonce := from;
      (if nonce in stored then [stored[nonce]] else []) + MessageDetailsFrom(stored, from + 1, end)
  }

  /** The reference answer of `message_details(lane, begin, end)`. */
  function MessageDetailsIn(stored: LaneMessages, begin: MessageNonce, end: MessageNonce)
    : (r: seq<MessageDetails>)
  {
    MessageDetailsFrom(stored, begin, end)
  }

  lemma {:induction false} MessageDetailsFromStored(stored: LaneMessages, from: nat, end: MessageNonce)
    ensures StoredInRange(stored, from, end, MessageDetailsFrom(stored, from, end))
    decreases end + 1 - from
  {
    if from <= end {
      MessageDetailsFromStored(stored, from + 1, end);
    }
  }

  lemma {:induction false} MessageDetailsFromAscending(stored: LaneMessages, from: nat, end: MessageNonce)
    ensures AscendingNonces(MessageDetailsFrom(stored, from, end))
    decreases end + 1 - from
  {
    if from <= end {
      MessageDetailsFromStored(stored, from + 1, end);
      MessageDetailsFromAscending(stored, from + 1, end);
    }
  }

  lemma {:induction false} MessageDetailsFromCovers(stored: LaneMessages, from: nat, end: MessageNonce)
    ensures CoversStored(stored, from, end, MessageDetailsFrom(stored, from, end))
    decreases end + 1 - from
  {
    if from <= end {
      var nonce: MessageNonce := from;
      var head := if nonce in stored then [stored[nonce]] else [];
      var tail := MessageDetailsFrom(stored, from + 1, end);
      MessageDetailsFromCovers(stored, from + 1, end);
      var r := head + tail;
      assert r == MessageDetailsFrom(stored, from, end);
      forall n | from <= n <= end && n in stored
        ensures exists i :: 0 <= i < |r| && r[i].nonce == n
      {
        if n == from {
          assert r[0].nonce == n;
        } else {
          var i :| 0 <= i < |tail| && tail[i].nonce == n;
          assert r[|head| + i].nonce == n;
        }
      }
    }
  }

  /** The reference answer keeps the contract. */
  lemma MessageDetailsInMeetsContract(stored: LaneMessages, begin: MessageNonce, end: MessageNonce)
    ensures MessageDetailsContract(stored, begin, end, MessageDetailsIn(stored, begin, end))
  {
    MessageDetailsFromStored(stored, begin, end);
    MessageDetailsFromAscending(stored, begin, end);
    MessageDetailsFromCovers(stored, begin, end);
  }

  /** In an answer ordered by nonce, the first entry has the smallest nonce. */
  lemma FirstIsLeast(answer: seq<MessageDetails>, k: int)
    requires AscendingNonces(answer) && 0 <= k < |answer|
    ensures answer[0].nonce <= answer[k].nonce
  {
    if k > 0 {
      assert answer[0].nonce < answer[k].nonce;
    }
  }

  /** Under the contract, the first entries of two non-empty answers carry the same nonce. */
  lemma FirstEntriesAgree(stored: LaneMessages, begin: int, end: int, a: seq<MessageDetails>, b: seq<MessageDetails>)
    requires MessageDetailsContract(stored, begin, end, a)
    requires MessageDetailsContract(stored, begin, end, b)
    requires |a| > 0
    ensures |b| > 0 && b[0] == a[0]
  {
    assert a[0].nonce in stored;
    var j :| 0 <= j < |b| && b[j].nonce == a[0].nonce;
    assert b[0].nonce in stored;
    var i :| 0 <= i < |a| && a[i].nonce == b[0].nonce;
    FirstIsLeast(a, i);
    FirstIsLeast(b, j);
  }

  lemma TailKeepsContract(stored: LaneMessages, begin: int, end: int, a: seq<MessageDetails>)
    requires MessageDetailsContract(stored, begin, end, a)
    requires |a| > 0
    ensures MessageDetailsContract(stored, a[0].nonce + 1, end, a[1..])
  {
    var tail := a[1..];
    forall i | 0 <= i < |tail|
      ensures a[0].nonce + 1 <= tail[i].nonce
    {
      assert tail[i] == a[i + 1];
    }
    forall n | a[0].nonce + 1 <= n <= end && n in stored
      ensures exists i :: 0 <= i < |tail| && tail[i].nonce == n
    {
      var k :| 0 <= k < |a| && a[k].nonce == n;
      assert tail[k - 1].nonce == n;
    }
  }

  /** Two non-empty sequences with the same first element and the same rest are equal. */
  lemma SameHeadAndTail<T>(a: seq<T>, b: seq<T>)
    requires |a| > 0 && |b| > 0 && a[0] == b[0] && a[1..] == b[1..]
    ensures a == b
  {
    assert a == [a[0]] + a[1..] && b == [b[0]] + b[1..];
  }

  /** The contract leaves no freedom: two answers that keep it are the same answer. */
  lemma {:induction false} MessageDetailsContractUnique(stored: LaneMessages, begin: int, end: int,
                                                        a: seq<MessageDetails>, b: seq<MessageDetails>)
    requires MessageDetailsContract(stored, begin, end, a)
    requires MessageDetailsContract(stored, begin, end, b)
    ensures a == b
    decreases |a| + |b|
  {
    if |a| > 0 {
      FirstEntriesAgree(stored, begin, end, a, b);
      TailKeepsContract(stored, begin, end, a);
      TailKeepsContract(stored, begin, end, b);
      MessageDetailsContractUnique(stored, a[0].nonce + 1, end, a[1..], b[1..]);
      SameHeadAndTail(a, b);
    } else if |b| > 0 {
      FirstEntriesAgree(stored, begin, end, b, a);
    }
  }

  // ---------------------------------------------------------------------------
  // `estimate_message_delivery_and_dispatch_fee`: what the answer must be

  /** Whether the sending chain's lane accepts a message that pays `fee`. */
  type FeePolicy = Balance -> bool

  /** Paying more never gets a message refused that paying less got accepted. */
  predicate PayingMoreIsAccepted(accepts: FeePolicy)
  {
    forall low: Balance, high: Balance :: low <= high && accepts(low) ==> accepts(high)
  }

  /**
   * The promise of the estimate: `None` when no fee gets the message accepted,
   * otherwise the lowest fee that does.
   */
  predicate FeeEstimateContract(accepts: FeePolicy, estimate: Option<Balance>)
  {
    match estimate
    case None => forall fee: Balance :: !accepts(fee)
    case Some(lowest) => accepts(lowest) && forall fee: Balance :: fee < lowest ==> !accepts(fee)
  }

  /** With a monotone policy, the estimate alone decides which fees are accepted. */
  lemma FeeEstimateDecides(accepts: FeePolicy, estimate: Option<Balance>, fee: Balance)
    requires PayingMoreIsAccepted(accepts)
    requires FeeEstimateContract(accepts, estimate)
    ensures accepts(fee) <==> estimate.Some? && estimate.value <= fee
  {
    if estimate.Some? && estimate.value <= fee {
      assert accepts(estimate.value);
    }
  }

  /** At most one estimate keeps the promise. */
  lemma FeeEstimateUnique(accepts: FeePolicy, e1: Option<Balance>, e2: Option<Balance>)
    requires FeeEstimateContract(accepts, e1)
    requires FeeEstimateContract(accepts, e2)
    ensures e1 == e2
  {
  }
}
