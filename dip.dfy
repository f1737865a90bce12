/**
 * The DIP half of src/utils.ts: the signature over the consumer-side payload
 * (`generateDipTxSignature`), the anchors and proofs read from the provider and relay chains,
 * and the `dipConsumer.dispatchAs` extrinsic built from them (`generateSiblingDipTx`,
 * `generateParentDipTx`), written once as an assembler parameterised by the topology.
 *
 * A chain is an immutable record of what the scripts read from it. Storage proofs, the
 * `dipProvider.generateProof` runtime call and SCALE encoding are functions carried by the
 * record and left uninterpreted.
 */
module Dip {
  import opened Wrappers
  import opened Base
  import opened JsText
  import opened Hex
  import opened Config

  type Hash = Bytes
  type Call = Bytes
  type ProofNodes = seq<Bytes>

  datatype Header = Header(number: nat, parentHash: Hash, stateRoot: Hash, extrinsicsRoot: Hash)

  /** The storage entries proofs are requested for. */
  datatype StorageKey =
    | ParasHeads(paraId: nat)                                   // relay: paras.heads(paraId)
    | IdentityCommitments(identifier: string, version: JsNumber) // provider: dipProvider.identityCommitments(did, version)

  /** The argument of the `dipProvider.generateProof` runtime call. */
  datatype DipProofRequest = DipProofRequest(
    identifier: string, version: JsNumber, keys: seq<string>, accounts: seq<string>,
    shouldIncludeWeb3Name: bool)

  /** The Merkle proof of DID facts the provider returns. */
  datatype DipProof = DipProof(blinded: seq<Bytes>, revealed: seq<Bytes>)

  /** The identity-details element of the signed tuple. */
  datatype IdentityDetails =
    | Stored(details: Bytes)     // the consumer's dipConsumer.identityEntries value
    | NullOf(typeName: string)   // `api.createType(identityDetailsType, null)`

  /** The tuple `(Call, <identity details>, <account id>, <block number>, Hash)` that is signed. */
  datatype SigningPayload = SigningPayload(
    tupleType: string, call: Call, identityDetails: IdentityDetails, submitter: string,
    blockNumber: nat, genesisHash: Hash)

  /** `{ [keyType]: signature }`. */
  datatype EncodedSignature = EncodedSignature(keyType: string, signature: Bytes)

  /** What `generateDipTxSignature` returns: the signature and the block number it targets. */
  datatype DipSignature = DipSignature(signature: EncodedSignature, blockNumber: nat)

  datatype ParaStateRoot = ParaStateRoot(relayBlockHeight: nat, proof: ProofNodes)
  datatype TimeBoundSignature = TimeBoundSignature(signature: EncodedSignature, blockNumber: nat)
  datatype DidProof = DidProof(leaves: DipProof, signature: TimeBoundSignature)

  /** The body of the `V<version>` variant; only the parent variant carries a relay header. */
  datatype EnvelopeBody = EnvelopeBody(
    paraStateRoot: ParaStateRoot, header: Option<Header>, dipIdentityCommitment: ProofNodes,
    did: DidProof)

  /** `{ [`V${version}`]: body }`. */
  datatype Envelope = Envelope(tag: string, body: EnvelopeBody)

  /** `dipConsumer.dispatchAs(identifier, envelope, call)`. */
  datatype DipTx = DispatchAs(identifier: string, proof: Envelope, call: Call)

  /** The codec of a chain's type registry (`api.createType(...).toU8a()`, extrinsic encoding). */
  datatype Registry = Registry(
    encodePayload: SigningPayload -> Bytes,
    encodeDidPublicKey: (string, Bytes) -> Bytes,
    decodeCall: Option<string> -> Option<Call>,
    encodeExtrinsic: DipTx -> Bytes)

  /**
   * What the scripts read from one chain. `headers` holds the blocks the node knows
   * (`chain_getHeader`), `blockHashes` its canonical height-to-hash index (`chain_getBlockHash`),
   * `lastRelayChainBlockNumber` the parachainSystem value in the state at each block.
   */
  datatype Chain = Chain(
    parachainId: nat,
    finalizedHead: Hash,
    headers: map<Hash, Header>,
    blockHashes: map<int, Hash>,
    lastRelayChainBlockNumber: map<Hash, nat>,
    hasDispatchAs: bool,
    systemNumber: nat,
    systemBlockHash: map<nat, Hash>,
    identityEntries: map<string, Bytes>,
    readProof: (seq<StorageKey>, Hash) -> ProofNodes,
    generateProof: DipProofRequest -> Result<DipProof, Bytes>,
    registry: Registry)

  /** The value a missing `system.blockHash` entry reads as: 32 zero bytes. */
  const ZeroHash: Hash := [
    0, 0, 0, 0, 0, 0, 0, 0, 0, 0, 0, 0, 0, 0, 0, 0, 0, 0, 0, 0, 0, 0, 0, 0, 0, 0, 0, 0, 0, 0, 0, 0]

  /** `api.query.system.blockHash(n)`. */
  function StoredBlockHash(c: Chain, n: nat): (h: Hash)
    ensures n in c.systemBlockHash ==> h == c.systemBlockHash[n]
    ensures n !in c.systemBlockHash ==> h == ZeroHash
  {
    if n in c.systemBlockHash then c.systemBlockHash[n] else ZeroHash
  }

  /** `api.rpc.chain.getHeader(hash)`. */
  function GetHeader(c: Chain, hash: Hash): (r: Result<Header, Error>)
    ensures r.Ok? <==> hash in c.headers
    ensures r.Ok? ==> r.value == c.headers[hash]
    ensures r.Err? ==> r.error == UnknownBlockHash(hash)
  {
    if hash in c.headers then Ok(c.headers[hash]) else Err(UnknownBlockHash(hash))
  }

  /** `api.rpc.chain.getBlockHash(height)`; heights below zero are never found. */
  function GetBlockHash(c: Chain, height: int): (r: Result<Hash, Error>)
    ensures r.Ok? <==> height >= 0 && height in c.blockHashes
    ensures r.Ok? ==> r.value == c.blockHashes[height]
    ensures r.Err? ==> r.error == UnknownBlockNumber(height)
  {
    if height >= 0 && height in c.blockHashes then Ok(c.blockHashes[height])
    else Err(UnknownBlockNumber(height))
  }

  /** `api.at(hash)` followed by `parachainSystem.lastRelayChainBlockNumber()`. */
  function RelayParentAt(c: Chain, hash: Hash): (r: Result<nat, Error>)
    ensures r.Ok? <==> hash in c.lastRelayChainBlockNumber
    ensures r.Ok? ==> r.value == c.lastRelayChainBlockNumber[hash]
  {
    if hash in c.lastRelayChainBlockNumber then Ok(c.lastRelayChainBlockNumber[hash])
    else Err(UnknownBlockHash(hash))
  }

  /** `api.rpc.state.getReadProof(keys, at)`, keeping only its `proof` field. */
  function GetReadProof(c: Chain, keys: seq<StorageKey>, at: Hash): (r: Result<ProofNodes, Error>)
    ensures r.Ok? <==> at in c.headers
    ensures r.Ok? ==> r.value == c.readProof(keys, at)
  {
    if at in c.headers then Ok(c.readProof(keys, at)) else Err(UnknownBlockHash(at))
  }

  /** `(... as Result<Codec, Codec>).asOk` of the runtime call: an Err result throws. */
  function GenerateProof(c: Chain, request: DipProofRequest): (r: Result<DipProof, Error>)
    ensures c.generateProof(request).Ok? ==> r == Ok(c.generateProof(request).value)
    ensures c.generateProof(request).Err? ==> r == Err(ProofGenerationFailed(c.generateProof(request).error))
  {
    match c.generateProof(request)
    case Ok(proof) => Ok(proof)
    case Err(reason) => Err(ProofGenerationFailed(reason))
  }

  /** The tuple type string `(Call, ${identityDetailsType}, ${accountIdType}, ${blockNumberType}, Hash)`. */
  function TupleType(identityDetailsType: string, accountIdType: string, blockNumberType: string): (t: string)
    ensures var i, a, b := |identityDetailsType|, |accountIdType|, |blockNumberType|;
      && |t| == 18 + i + a + b
      && t[..7] == "(Call, " && t[|t| - 7..] == ", Hash)"
      && t[7..7 + i] == identityDetailsType
      && t[9 + i..9 + i + a] == accountIdType
      && t[11 + i + a..11 + i + a + b] == blockNumberType
  {
    "(Call, " + identityDetailsType + ", " + accountIdType + ", " + blockNumberType + ", Hash)"
  }

  /**
   * The payload `generateDipTxSignature` signs: the call, the DID's identity details on the
   * signing chain (a null value of the configured type when it has none), the submitter, the
   * chain's current block number and its stored hash of block 0, in that order. The three
   * type names come from the environment with `??`, so only an unset variable falls back.
   */
  function SigningPayloadFor(api: Chain, env: Env, sdk: Sdk, did: string, call: Call, submitter: string): (p: SigningPayload)
    ensures p.call == call && p.submitter == submitter
    ensures p.blockNumber == api.systemNumber && p.genesisHash == StoredBlockHash(api, 0)
    ensures sdk.toChain(did) in api.identityEntries ==>
      p.identityDetails == Stored(api.identityEntries[sdk.toChain(did)])
    ensures sdk.toChain(did) !in api.identityEntries ==>
      p.identityDetails == NullOf(EnvOr(env, IdentityDetailsTypeVar, DefaultIdentityDetailsType))
    ensures p.tupleType == TupleType(
      EnvOr(env, IdentityDetailsTypeVar, "Option<u128>"),
      EnvOr(env, AccountIdTypeVar, "AccountId32"),
      EnvOr(env, BlockNumberTypeVar, "u64"))
  {
    var identityDetailsType := EnvOr(env, IdentityDetailsTypeVar, DefaultIdentityDetailsType);
    var identifier := sdk.toChain(did);
    var identityDetails :=
      if identifier in api.identityEntries then Stored(api.identityEntries[identifier])
      else NullOf(identityDetailsType);
    var accountIdType := EnvOr(env, AccountIdTypeVar, DefaultAccountIdType);
    var blockNumberType := EnvOr(env, BlockNumberTypeVar, DefaultBlockNumberType);
    SigningPayload(
      TupleType(identityDetailsType, accountIdType, blockNumberType),
      call, identityDetails, submitter, api.systemNumber, StoredBlockHash(api, 0))
  }

  /**
   * `generateDipTxSignature`: fails when the chain has no `dipConsumer.dispatchAs`, whatever
   * else it holds; otherwise the signer's signature over the encoded payload, tagged with the
   * signer's key type, together with the block number that is inside the payload.
   */
  function GenerateDipTxSignature(
    api: Chain, env: Env, sdk: Sdk, did: string, call: Call, submitter: string,
    relationship: Relationship, signer: KeyPair): (r: Result<DipSignature, Error>)
    ensures r.Err? <==> !api.hasDispatchAs
    ensures r.Err? ==> r.error == NotDipCapable
    ensures r.Ok? ==>
      var payload := SigningPayloadFor(api, env, sdk, did, call, submitter);
      && r.value.blockNumber == payload.blockNumber
      && r.value.signature.keyType == signer.keyType
      && r.value.signature.signature == sdk.sign(signer, api.registry.encodePayload(payload))
  {
    if !api.hasDispatchAs then Err(NotDipCapable)
    else
      var payload := SigningPayloadFor(api, env, sdk, did, call, submitter);
      // The callback receives `keyRelationship` and `did` too, and ignores them.
      var signed := SignWith(sdk, signer, api.registry.encodePayload(payload));
      Ok(DipSignature(EncodedSignature(signed.keyType, signed.signature), payload.blockNumber))
  }

  /** The envelope's variant name `V${version}`. */
  function VersionTag(version: JsNumber): (tag: string)
    ensures |tag| >= 2 && tag[0] == 'V' && tag[1..] == NumberToString(version)
  {
    "V" + NumberToString(version)
  }

  /** Two envelopes carry the same tag exactly when they were built for the same version. */
  lemma VersionTagInjective(a: JsNumber, b: JsNumber)
    ensures VersionTag(a) == VersionTag(b) <==> a == b
  {
    if VersionTag(a) == VersionTag(b) {
      assert VersionTag(a)[1..] == VersionTag(b)[1..];
      NumberToStringInjective(a, b);
    }
  }

  /** The tag of an integer version reads back, with `parseInt`, as that version. */
  lemma VersionTagParsesBack(v: int)
    ensures ParseInt(VersionTag(Num(v))[1..]) == Num(v)
  {
    ParseIntOfDecimal(v);
  }

  /**
   * The `generateProof` argument: the DID's chain identifier, the version, the key id without
   * its first character as the only key, no accounts, and the web3-name flag.
   */
  function ProofRequestFor(sdk: Sdk, did: string, keyId: string, version: JsNumber, includeWeb3Name: bool): (q: DipProofRequest)
    ensures q.identifier == sdk.toChain(did) && q.version == version
    ensures q.keys == [Substring1(keyId)] && q.accounts == []
    ensures q.shouldIncludeWeb3Name == includeWeb3Name
  {
    DipProofRequest(sdk.toChain(did), version, [Substring1(keyId)], [], includeWeb3Name)
  }

  /** Sibling: the consumer is a third parachain. Parent: the consumer is the relay chain. */
  datatype Topology = Sibling | Parent

  /** The relay header the parent variant embeds (`relayApi.rpc.chain.getHeader(hash)`). */
  function RelayHeaderFor(topology: Topology, relay: Chain, hash: Hash): (r: Result<Option<Header>, Error>)
    ensures topology == Sibling ==> r == Ok(None)
    ensures topology == Parent ==> (r.Ok? <==> hash in relay.headers)
    ensures topology == Parent && r.Ok? ==> r.value == Some(relay.headers[hash])
  {
    match topology
    case Sibling => Ok(None)
    case Parent =>
      var header :- GetHeader(relay, hash);
      Ok(Some(header))
  }

  /**
   * The common body of `generateSiblingDipTx` and `generateParentDipTx`, step by step in the
   * source's order; the first failing step decides the error. `signing` is the chain the
   * signature targets: the consumer for a sibling, the relay chain for a parent.
   */
  function GenerateDipTx(
    topology: Topology, relay: Chain, provider: Chain, signing: Chain, env: Env, sdk: Sdk,
    did: string, call: Call, submitter: string, keyId: string, relationship: Relationship,
    includeWeb3Name: bool, version: JsNumber, signer: KeyPair): (r: Result<DipTx, Error>)
    ensures !signing.hasDispatchAs ==> r == Err(NotDipCapable)
    ensures r.Ok? ==> r.value.identifier == sdk.toChain(did) && r.value.call == call
    ensures r.Ok? ==> r.value.proof.tag == VersionTag(version)
    ensures r.Ok? ==> (r.value.proof.body.header.Some? <==> topology == Parent)
  {
    var signature :- GenerateDipTxSignature(signing, env, sdk, did, call, submitter, relationship, signer);
    var providerChainId := provider.parachainId;
    var finalizedHash := provider.finalizedHead;
    var finalizedHeader :- GetHeader(provider, finalizedHash);
    var finalizedNumber := finalizedHeader.number;
    var relayHeight :- RelayParentAt(provider, finalizedHash);
    var relayHash :- GetBlockHash(relay, relayHeight);
    var relayProof :- GetReadProof(relay, [ParasHeads(providerChainId)], relayHash);
    var header :- RelayHeaderFor(topology, relay, relayHash);
    // The commitment proof is taken at the block before the last finalized one.
    var previousHash :- GetBlockHash(provider, finalizedNumber - 1);
    var identifier := sdk.toChain(did);
    var paraStateProof :- GetReadProof(provider, [IdentityCommitments(identifier, version)], previousHash);
    var dipProof :- GenerateProof(provider, ProofRequestFor(sdk, did, keyId, version, includeWeb3Name));
    Ok(DispatchAs(
      identifier,
      Envelope(VersionTag(version), EnvelopeBody(
        ParaStateRoot(relayHeight, relayProof),
        header,
        paraStateProof,
        DidProof(dipProof, TimeBoundSignature(signature.signature, signature.blockNumber)))),
      call))
  }

  /** `generateSiblingDipTx`: signs against the consumer chain. */
  function GenerateSiblingDipTx(
    relay: Chain, provider: Chain, consumer: Chain, env: Env, sdk: Sdk, did: string, call: Call,
    submitter: string, keyId: string, relationship: Relationship, includeWeb3Name: bool,
    version: JsNumber, signer: KeyPair): (r: Result<DipTx, Error>)
    ensures !consumer.hasDispatchAs ==> r == Err(NotDipCapable)
    ensures r.Ok? ==> r.value.proof.body.header.None?
  {
    GenerateDipTx(Sibling, relay, provider, consumer, env, sdk, did, call, submitter, keyId,
      relationship, includeWeb3Name, version, signer)
  }

  /** `generateParentDipTx`: signs against the relay chain and embeds the relay header. */
  function GenerateParentDipTx(
    relay: Chain, provider: Chain, env: Env, sdk: Sdk, did: string, call: Call,
    submitter: string, keyId: string, relationship: Relationship, includeWeb3Name: bool,
    version: JsNumber, signer: KeyPair): (r: Result<DipTx, Error>)
    ensures !relay.hasDispatchAs ==> r == Err(NotDipCapable)
    ensures r.Ok? ==> r.value.proof.body.header.Some?
  {
    GenerateDipTx(Parent, relay, provider, relay, env, sdk, did, call, submitter, keyId,
      relationship, includeWeb3Name, version, signer)
  }

  /**
   * `computeDidKeyId`: "#" followed by the blake2-256 hash, in hex, of the provider's encoding
   * of the public key under its key type. Dropping the "#" and decoding gives the hash back.
   */
  function ComputeDidKeyId(provider: Chain, sdk: Sdk, publicKey: Bytes, keyType: string): (id: string)
    ensures |id| >= 3 && id[0] == '#'
    ensures HexToU8a(Substring1(id)) == Some(sdk.blake2_256(provider.registry.encodeDidPublicKey(keyType, publicKey)))
  {
    var hash := sdk.blake2_256(provider.registry.encodeDidPublicKey(keyType, publicKey));
    U8aToHexRoundTrip(hash);
    "#" + U8aToHex(hash)
  }

  /** `hexifyDipSignature`'s result: the same key type, the signature bytes in hex. */
  datatype HexSignature = HexSignature(keyType: string, signature: string)

  /** `hexifyDipSignature`: keeps the key type, and the hex text decodes to the signature bytes. */
  function HexifyDipSignature(s: EncodedSignature): (h: HexSignature)
    ensures h.keyType == s.keyType
    ensures HexToU8a(h.signature) == Some(s.signature)
  {
    U8aToHexRoundTrip(s.signature);
    HexSignature(s.keyType, U8aToHex(s.signature))
  }

  const PolkadotJSAppsPrefix := "https://polkadot.js.org/apps/?rpc="
  const DecodePath := "#/extrinsics/decode/"

  /**
   * `generatePolkadotJSLink`: the apps URL whose `rpc` parameter is the endpoint and whose
   * fragment ends with the encoded extrinsic.
   */
  function GeneratePolkadotJSLink(wsAddress: string, encodedExtrinsic: string): (link: string)
    requires |encodedExtrinsic| >= 2 && encodedExtrinsic[..2] == "0x"
    ensures |link| == |PolkadotJSAppsPrefix| + |wsAddress| + |DecodePath| + |encodedExtrinsic|
    ensures link[..|PolkadotJSAppsPrefix|] == "https://polkadot.js.org/apps/?rpc="
    ensures link[|PolkadotJSAppsPrefix|..|PolkadotJSAppsPrefix| + |wsAddress|] == wsAddress
    ensures link[|link| - |encodedExtrinsic| - |DecodePath|..|link| - |encodedExtrinsic|] == "#/extrinsics/decode/"
    ensures link[|link| - |encodedExtrinsic|..] == encodedExtrinsic
  {
    PolkadotJSAppsPrefix + wsAddress + DecodePath + encodedExtrinsic
  }
}
