/**
 * src/dip-sibling-sign.ts: the required configuration, the DID keys, the relationship and key
 * selection, the proof version and web3-name defaults, and the call of `generateSiblingDipTx`.
 * A run records the endpoints it connected to, in order, next to its outcome, so that "throws
 * before connecting" can be stated.
 */
module SiblingSign {
  import opened Wrappers
  import opened Base
  import opened JsText
  import opened Hex
  import opened Config
  import opened Dip
  import DipProperties

  /** The DID keys the script loads; the authentication key is always present. */
  datatype DidKeys = DidKeys(authentication: KeyPair, assertion: Option<KeyPair>, delegation: Option<KeyPair>)

  /**
   * `generateAuthenticationKey() ?? makeKeypairFromUri('//Alice')`, `generateAttestationKey()`
   * and `generateDelegationKey()`.
   */
  function LoadKeys(env: Env, sdk: Sdk, alice: KeyPair): (keys: DidKeys)
    ensures keys.authentication == GenerateKey(env, sdk, AuthKey).GetOr(alice)
    ensures keys.assertion == GenerateKey(env, sdk, AttestationKey)
    ensures keys.delegation == GenerateKey(env, sdk, DelegationKey)
  {
    DidKeys(GenerateKey(env, sdk, AuthKey).GetOr(alice), GenerateKey(env, sdk, AttestationKey),
      GenerateKey(env, sdk, DelegationKey))
  }

  /**
   * The relationship switch: the key of the requested relationship and no other; absent only
   * when an assertion or delegation key was requested and that key is not configured.
   */
  function SelectKey(relationship: Relationship, keys: DidKeys): (k: Option<KeyPair>)
    ensures relationship == Authentication ==> k == Some(keys.authentication)
    ensures relationship == AssertionMethod ==> k == keys.assertion
    ensures relationship == CapabilityDelegation ==> k == keys.delegation
  {
    match relationship
    case Authentication => Some(keys.authentication)
    case AssertionMethod => keys.assertion
    case CapabilityDelegation => keys.delegation
  }

  /** The selection never fails for authentication, which falls back to //Alice. */
  lemma OnlyAssertionOrDelegationCanBeMissing(env: Env, sdk: Sdk, alice: KeyPair, relationship: Relationship)
    ensures SelectKey(relationship, LoadKeys(env, sdk, alice)).None? ==>
      relationship != Authentication
      && (relationship == AssertionMethod ==> ReadMnemonic(env, AttestationKey).None?)
      && (relationship == CapabilityDelegation ==> ReadMnemonic(env, DelegationKey).None?)
  {
  }

  /** `dipProofVersion`: `parseInt` of DIP_PROOF_VERSION when it is set, otherwise 0. */
  function DipProofVersion(env: Env): (v: JsNumber)
    ensures DipProofVersionVar !in env ==> v == Num(0)
    ensures DipProofVersionVar in env ==> v == ParseInt(env[DipProofVersionVar])
  {
    if DipProofVersionVar in env then ParseInt(env[DipProofVersionVar]) else Num(DefaultDipProofVersion)
  }

  /** A version written out in decimal is read back as that version. */
  lemma DipProofVersionOfDecimal(env: Env, n: int)
    ensures DipProofVersion(env[DipProofVersionVar := IntToDecimal(n)]) == Num(n)
  {
    ParseIntOfDecimal(n);
  }

  /**
   * `includeWeb3Name`: INCLUDE_WEB3NAME lower-cased equals "true", or the default false;
   * that is, it is "true" in any mix of cases.
   */
  function IncludeWeb3Name(env: Env): (b: bool)
    ensures b <==> (
      && IncludeWeb3NameVar in env && |env[IncludeWeb3NameVar]| == 4
      && EitherCase(env[IncludeWeb3NameVar][0], 't') && EitherCase(env[IncludeWeb3NameVar][1], 'r')
      && EitherCase(env[IncludeWeb3NameVar][2], 'u') && EitherCase(env[IncludeWeb3NameVar][3], 'e'))
  {
    var lowered := match Lookup(env, IncludeWeb3NameVar)
      case Some(value) => Some(ToLowerAscii(value))
      case None => None;
    LowerCaseIsTrue(Lookup(env, IncludeWeb3NameVar).GetOr(""));
    lowered == Some("true") || DefaultIncludeWeb3Name
  }

  /** `c` is the given lower-case ASCII letter in either case. */
  predicate EitherCase(c: char, lower: char)
    requires 'a' <= lower <= 'z'
  {
    c == lower || c as int == lower as int - 32
  }

  /** For a lower-case letter, being that letter in either case is lower-casing to it. */
  lemma EitherCaseIsLowerChar(c: char, lower: char)
    requires 'a' <= lower <= 'z'
    ensures EitherCase(c, lower) <==> LowerChar(c) == lower
  {
  }

  /** "true", character by character. */
  lemma SpellsTrue(t: string)
    ensures t == "true" <==> |t| == 4 && t[0] == 't' && t[1] == 'r' && t[2] == 'u' && t[3] == 'e'
  {
    if |t| == 4 && t[0] == 't' && t[1] == 'r' && t[2] == 'u' && t[3] == 'e' {
      assert t == [t[0], t[1], t[2], t[3]];
    }
  }

  /** A text lower-cases to "true" exactly when it spells "true" in some mix of cases. */
  lemma LowerCaseIsTrue(s: string)
    ensures ToLowerAscii(s) == "true" <==>
      |s| == 4 && EitherCase(s[0], 't') && EitherCase(s[1], 'r') && EitherCase(s[2], 'u') && EitherCase(s[3], 'e')
  {
    SpellsTrue(ToLowerAscii(s));
    if |s| == 4 {
      EitherCaseIsLowerChar(s[0], 't');
      EitherCaseIsLowerChar(s[1], 'r');
      EitherCaseIsLowerChar(s[2], 'u');
      EitherCaseIsLowerChar(s[3], 'e');
    }
  }

  /** What the script prints: the encoded extrinsic and the PolkadotJS link to decode it. */
  datatype Output = Output(tx: DipTx, encodedOperation: string, link: string)

  /** A run: the endpoints connected to, in order, and the result or the error thrown. */
  datatype Run = Run(connected: seq<string>, outcome: Result<Output, Error>)

  /**
   * `main`. The three endpoints are checked first (relay, provider, consumer), then the
   * submitter, the keys are loaded, then the DID; only then is the consumer connected. The
   * relationship is parsed and its key selected before the provider is connected, and the
   * relay connection is opened last, as an argument of `generateSiblingDipTx`.
   * `relay`, `provider` and `consumer` are the chains behind the three endpoints.
   */
  function Main(env: Env, sdk: Sdk, alice: KeyPair, relay: Chain, provider: Chain, consumer: Chain): (run: Run)
    ensures RelayWsAddressVar !in env ==> run == Run([], Err(MissingEnv(RelayWsAddressVar)))
    ensures RelayWsAddressVar in env && ProviderWsAddressVar !in env ==>
      run == Run([], Err(MissingEnv(ProviderWsAddressVar)))
    ensures RelayWsAddressVar in env && ProviderWsAddressVar in env && ConsumerWsAddressVar !in env ==>
      run == Run([], Err(MissingEnv(ConsumerWsAddressVar)))
    ensures
      && RelayWsAddressVar in env && ProviderWsAddressVar in env && ConsumerWsAddressVar in env
      && SubmitterAddressVar !in env
      ==> run == Run([], Err(MissingEnv(SubmitterAddressVar)))
    ensures
      && RelayWsAddressVar in env && ProviderWsAddressVar in env && ConsumerWsAddressVar in env
      && SubmitterAddressVar in env && DidUriVar !in env
      ==> run == Run([], Err(MissingEnv(DidUriVar)))
    ensures
      && RelayWsAddressVar in env && ProviderWsAddressVar in env && ConsumerWsAddressVar in env
      && SubmitterAddressVar in env && DidUriVar in env
      && consumer.registry.decodeCall(Lookup(env, EncodedCallVar)).None?
      ==> run == Run([env[ConsumerWsAddressVar]], Err(CallDecodingFailed))
    ensures
      && RelayWsAddressVar in env && ProviderWsAddressVar in env && ConsumerWsAddressVar in env
      && SubmitterAddressVar in env && DidUriVar in env
      && consumer.registry.decodeCall(Lookup(env, EncodedCallVar)).Some?
      && ParseVerificationMethod(env).Err?
      ==> run == Run([env[ConsumerWsAddressVar]], Err(ParseVerificationMethod(env).error))
    ensures run.outcome.Err? && run.outcome.error == MissingDidKey ==>
      run.connected == [env[ConsumerWsAddressVar]]
    ensures
      && RelayWsAddressVar in env && ProviderWsAddressVar in env && ConsumerWsAddressVar in env
      && SubmitterAddressVar in env && DidUriVar in env
      && consumer.registry.decodeCall(Lookup(env, EncodedCallVar)).Some?
      && ParseVerificationMethod(env).Ok?
      && SelectKey(ParseVerificationMethod(env).value, LoadKeys(env, sdk, alice)).None?
      ==> run == Run([env[ConsumerWsAddressVar]], Err(MissingDidKey))
    ensures run.outcome.Ok? ==>
      run.connected == [env[ConsumerWsAddressVar], env[ProviderWsAddressVar], env[RelayWsAddressVar]]
    ensures run.outcome.Ok? ==>
      && |run.outcome.value.encodedOperation| >= 2 && run.outcome.value.encodedOperation[..2] == "0x"
      && run.outcome.value.link == GeneratePolkadotJSLink(env[ConsumerWsAddressVar], run.outcome.value.encodedOperation)
    ensures run.outcome.Ok? ==>
      run.outcome.value.encodedOperation == U8aToHex(consumer.registry.encodeExtrinsic(run.outcome.value.tx))
  {
    if RelayWsAddressVar !in env then Run([], Err(MissingEnv(RelayWsAddressVar)))
    else if ProviderWsAddressVar !in env then Run([], Err(MissingEnv(ProviderWsAddressVar)))
    else if ConsumerWsAddressVar !in env then Run([], Err(MissingEnv(ConsumerWsAddressVar)))
    else if SubmitterAddressVar !in env then Run([], Err(MissingEnv(SubmitterAddressVar)))
    else
      var keys := LoadKeys(env, sdk, alice);
      if DidUriVar !in env then Run([], Err(MissingEnv(DidUriVar)))
      else
        var consumerAddress := env[ConsumerWsAddressVar];
        var decodedCall := consumer.registry.decodeCall(Lookup(env, EncodedCallVar));
        if decodedCall.None? then Run([consumerAddress], Err(CallDecodingFailed))
        else match ParseVerificationMethod(env)
          case Err(e) => Run([consumerAddress], Err(e))
          case Ok(relationship) =>
            match SelectKey(relationship, keys)
            case None => Run([consumerAddress], Err(MissingDidKey))
            case Some(requiredKey) =>
              var version := DipProofVersion(env);
              var didKeyId := ComputeDidKeyId(provider, sdk, requiredKey.publicKey, requiredKey.keyType);
              var includeWeb3Name := IncludeWeb3Name(env);
              var connected := [consumerAddress, env[ProviderWsAddressVar], env[RelayWsAddressVar]];
              match GenerateSiblingDipTx(relay, provider, consumer, env, sdk, env[DidUriVar],
                decodedCall.value, env[SubmitterAddressVar], didKeyId, relationship, includeWeb3Name,
                version, requiredKey)
              case Err(e) => Run(connected, Err(e))
              case Ok(tx) =>
                var encoded := U8aToHex(consumer.registry.encodeExtrinsic(tx));
                Run(connected, Ok(Output(tx, encoded, GeneratePolkadotJSLink(consumerAddress, encoded))))
  }

  /**
   * The hand-off: once everything `main` checks is in place and the relationship's key exists,
   * all three chains are connected and the run ends as `generateSiblingDipTx`, called with the
   * forwarded arguments, ends: with its error, or with its transaction.
   */
  lemma MainHandsOff(env: Env, sdk: Sdk, alice: KeyPair, relay: Chain, provider: Chain, consumer: Chain)
    requires RelayWsAddressVar in env && ProviderWsAddressVar in env && ConsumerWsAddressVar in env
    requires SubmitterAddressVar in env && DidUriVar in env
    requires consumer.registry.decodeCall(Lookup(env, EncodedCallVar)).Some?
    requires ParseVerificationMethod(env).Ok?
    requires SelectKey(ParseVerificationMethod(env).value, LoadKeys(env, sdk, alice)).Some?
    ensures
      var run := Main(env, sdk, alice, relay, provider, consumer);
      var relationship := ParseVerificationMethod(env).value;
      var key := SelectKey(relationship, LoadKeys(env, sdk, alice)).value;
      var tx := GenerateSiblingDipTx(relay, provider, consumer, env, sdk, env[DidUriVar],
        consumer.registry.decodeCall(Lookup(env, EncodedCallVar)).value, env[SubmitterAddressVar],
        ComputeDidKeyId(provider, sdk, key.publicKey, key.keyType), relationship,
        IncludeWeb3Name(env), DipProofVersion(env), key);
      && run.connected == [env[ConsumerWsAddressVar], env[ProviderWsAddressVar], env[RelayWsAddressVar]]
      && (run.outcome.Ok? <==> tx.Ok?)
      && (tx.Err? ==> run.outcome == Err(tx.error))
      && (tx.Ok? ==> run.outcome.value.tx == tx.value)
  {
  }

  /**
   * A missing key is thrown after the consumer connection and before anything else: the
   * provider and relay are never contacted, and this happens only for a configured
   * assertionMethod or capabilityDelegation request whose key has no mnemonic.
   */
  lemma MissingKeyStopsBeforeProvider(env: Env, sdk: Sdk, alice: KeyPair, relay: Chain, provider: Chain, consumer: Chain)
    requires Main(env, sdk, alice, relay, provider, consumer).outcome == Err(MissingDidKey)
    ensures Main(env, sdk, alice, relay, provider, consumer).connected == [env[ConsumerWsAddressVar]]
    ensures VerificationMethodVar in env
    ensures env[VerificationMethodVar] == "assertionMethod" ==> ReadMnemonic(env, AttestationKey).None?
    ensures env[VerificationMethodVar] == "capabilityDelegation" ==> ReadMnemonic(env, DelegationKey).None?
    ensures env[VerificationMethodVar] != "authentication"
  {
    var keys := LoadKeys(env, sdk, alice);
    var relationship := ParseVerificationMethod(env).value;
    OnlyAssertionOrDelegationCanBeMissing(env, sdk, alice, relationship);
  }

  /**
   * The arguments `main` forwards: a successful run's transaction is exactly what
   * `generateSiblingDipTx` builds from the DID, the decoded call, the submitter, the parsed
   * relationship, the key selected for that very relationship, the key id `computeDidKeyId` gives
   * for that key, and the configured web3-name flag and version, signed with that key. So the
   * revealed key requested from the provider is the hex hash of that key's encoding, and the
   * envelope's signature is that key's signature over the consumer's payload.
   */
  lemma ForwardedArguments(env: Env, sdk: Sdk, alice: KeyPair, relay: Chain, provider: Chain, consumer: Chain)
    requires Main(env, sdk, alice, relay, provider, consumer).outcome.Ok?
    ensures ParseVerificationMethod(env).Ok?
    ensures consumer.registry.decodeCall(Lookup(env, EncodedCallVar)).Some?
    ensures
      var relationship := ParseVerificationMethod(env).value;
      var key := SelectKey(relationship, LoadKeys(env, sdk, alice));
      var call := consumer.registry.decodeCall(Lookup(env, EncodedCallVar)).value;
      && key.Some?
      && RelationshipName(relationship) == env[VerificationMethodVar]
      && var tx := Main(env, sdk, alice, relay, provider, consumer).outcome.value.tx;
      && Ok(tx) == GenerateSiblingDipTx(relay, provider, consumer, env, sdk, env[DidUriVar], call,
           env[SubmitterAddressVar], ComputeDidKeyId(provider, sdk, key.value.publicKey, key.value.keyType),
           relationship, IncludeWeb3Name(env), DipProofVersion(env), key.value)
      && tx.identifier == sdk.toChain(env[DidUriVar]) && tx.call == call
      && var version := DipProofVersion(env);
      && var request := DipProofRequest(sdk.toChain(env[DidUriVar]), version,
           [U8aToHex(sdk.blake2_256(provider.registry.encodeDidPublicKey(key.value.keyType, key.value.publicKey)))],
           [], IncludeWeb3Name(env));
      && provider.generateProof(request).Ok?
      && tx.proof.body.did.leaves == provider.generateProof(request).value
      && tx.proof.tag == VersionTag(version)
      && tx.proof.body.did.signature.signature == EncodedSignature(key.value.keyType,
           sdk.sign(key.value, consumer.registry.encodePayload(
             SigningPayloadFor(consumer, env, sdk, env[DidUriVar], call, env[SubmitterAddressVar]))))
      && tx.proof.body.header.None?
  {
    var relationship := ParseVerificationMethod(env).value;
    var key := SelectKey(relationship, LoadKeys(env, sdk, alice)).value;
    var decodedCall := consumer.registry.decodeCall(Lookup(env, EncodedCallVar)).value;
    var keyId := ComputeDidKeyId(provider, sdk, key.publicKey, key.keyType);
    DipProperties.ComputedKeyIdRevealsHash(provider, sdk, key.publicKey, key.keyType);
    DipProperties.DipTxVersionAndKeys(Sibling, relay, provider, consumer, env, sdk, env[DidUriVar],
      decodedCall, env[SubmitterAddressVar], keyId, relationship, IncludeWeb3Name(env),
      DipProofVersion(env), key, DipProofVersion(env));
    DipProperties.DipTxSignature(Sibling, relay, provider, consumer, env, sdk, env[DidUriVar],
      decodedCall, env[SubmitterAddressVar], keyId, relationship, IncludeWeb3Name(env),
      DipProofVersion(env), key);
  }
}
