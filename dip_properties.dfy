/**
 * What `generateSiblingDipTx` and `generateParentDipTx` do with their anchors, their version
 * and their key id, and how the two variants relate.
 */
module DipProperties {
  import opened Wrappers
  import opened Base
  import opened JsText
  import opened Config
  import opened Dip

  /**
   * Anchors of a built transaction. The relay height is the provider's
   * `lastRelayChainBlockNumber` in the state at its finalized head, and it is the envelope's
   * `relayBlockHeight`; the relay proof of `paras.heads(providerParaId)` was fetched at the
   * relay hash of exactly that height; the commitment proof was fetched at the provider block
   * one below the finalized one, so a finalized head at height 0 never yields a transaction.
   */
  lemma DipTxAnchors(
    topology: Topology, relay: Chain, provider: Chain, signing: Chain, env: Env, sdk: Sdk,
    did: string, call: Call, submitter: string, keyId: string, relationship: Relationship,
    includeWeb3Name: bool, version: JsNumber, signer: KeyPair)
    requires GenerateDipTx(topology, relay, provider, signing, env, sdk, did, call, submitter,
      keyId, relationship, includeWeb3Name, version, signer).Ok?
    ensures
      var tx := GenerateDipTx(topology, relay, provider, signing, env, sdk, did, call, submitter,
        keyId, relationship, includeWeb3Name, version, signer).value;
      var head := provider.finalizedHead;
      && head in provider.lastRelayChainBlockNumber
      && var relayHeight := provider.lastRelayChainBlockNumber[head];
      && tx.proof.body.paraStateRoot.relayBlockHeight == relayHeight
      && relayHeight in relay.blockHashes
      && tx.proof.body.paraStateRoot.proof
         == relay.readProof([ParasHeads(provider.parachainId)], relay.blockHashes[relayHeight])
      && head in provider.headers
      && var finalized := provider.headers[head].number;
      && finalized >= 1
      && finalized - 1 in provider.blockHashes
      && tx.proof.body.dipIdentityCommitment
         == provider.readProof([IdentityCommitments(sdk.toChain(did), version)], provider.blockHashes[finalized - 1])
  {
  }

  /**
   * When a transaction is built: exactly when the signing chain has `dispatchAs`, every block
   * the assembler reads is known (the provider's finalized head with its relay parent, the relay
   * block at that height, the provider block one below the finalized one) and the provider's
   * `generateProof` returns a proof. Otherwise the first step that fails decides the error.
   */
  lemma DipTxSucceeds(
    topology: Topology, relay: Chain, provider: Chain, signing: Chain, env: Env, sdk: Sdk,
    did: string, call: Call, submitter: string, keyId: string, relationship: Relationship,
    includeWeb3Name: bool, version: JsNumber, signer: KeyPair)
    ensures
      var head := provider.finalizedHead;
      GenerateDipTx(topology, relay, provider, signing, env, sdk, did, call, submitter,
        keyId, relationship, includeWeb3Name, version, signer).Ok?
      <==>
      && signing.hasDispatchAs
      && head in provider.headers
      && head in provider.lastRelayChainBlockNumber
      && provider.lastRelayChainBlockNumber[head] in relay.blockHashes
      && relay.blockHashes[provider.lastRelayChainBlockNumber[head]] in relay.headers
      && provider.headers[head].number >= 1
      && provider.headers[head].number - 1 in provider.blockHashes
      && provider.blockHashes[provider.headers[head].number - 1] in provider.headers
      && provider.generateProof(ProofRequestFor(sdk, did, keyId, version, includeWeb3Name)).Ok?
  {
  }

  /**
   * One version throughout: the commitment proof's storage key, the proof request and the
   * `V${version}` tag all carry `version`, and the tag of any other version differs.
   * The only revealed key is the key id without its first character, and no account is revealed.
   */
  lemma DipTxVersionAndKeys(
    topology: Topology, relay: Chain, provider: Chain, signing: Chain, env: Env, sdk: Sdk,
    did: string, call: Call, submitter: string, keyId: string, relationship: Relationship,
    includeWeb3Name: bool, version: JsNumber, signer: KeyPair, other: JsNumber)
    requires GenerateDipTx(topology, relay, provider, signing, env, sdk, did, call, submitter,
      keyId, relationship, includeWeb3Name, version, signer).Ok?
    ensures
      var tx := GenerateDipTx(topology, relay, provider, signing, env, sdk, did, call, submitter,
        keyId, relationship, includeWeb3Name, version, signer).value;
      var request := DipProofRequest(sdk.toChain(did), version, [Substring1(keyId)], [], includeWeb3Name);
      && provider.finalizedHead in provider.headers
      && provider.headers[provider.finalizedHead].number - 1 in provider.blockHashes
      && tx.proof.body.dipIdentityCommitment == provider.readProof(
           [IdentityCommitments(sdk.toChain(did), version)],
           provider.blockHashes[provider.headers[provider.finalizedHead].number - 1])
      && provider.generateProof(request).Ok?
      && tx.proof.body.did.leaves == provider.generateProof(request).value
      && tx.proof.tag == VersionTag(version)
      && (other != version ==> tx.proof.tag != VersionTag(other))
  {
    DipTxAnchors(topology, relay, provider, signing, env, sdk, did, call, submitter, keyId,
      relationship, includeWeb3Name, version, signer);
    VersionTagInjective(version, other);
  }

  /**
   * The signature in the envelope is the signer's signature over the payload read from the
   * signing chain, tagged with the signer's key type, with that chain's block number beside it.
   */
  lemma DipTxSignature(
    topology: Topology, relay: Chain, provider: Chain, signing: Chain, env: Env, sdk: Sdk,
    did: string, call: Call, submitter: string, keyId: string, relationship: Relationship,
    includeWeb3Name: bool, version: JsNumber, signer: KeyPair)
    requires GenerateDipTx(topology, relay, provider, signing, env, sdk, did, call, submitter,
      keyId, relationship, includeWeb3Name, version, signer).Ok?
    ensures
      var tx := GenerateDipTx(topology, relay, provider, signing, env, sdk, did, call, submitter,
        keyId, relationship, includeWeb3Name, version, signer).value;
      var payload := SigningPayloadFor(signing, env, sdk, did, call, submitter);
      && signing.hasDispatchAs
      && tx.proof.body.did.signature == TimeBoundSignature(
           EncodedSignature(signer.keyType, sdk.sign(signer, signing.registry.encodePayload(payload))),
           signing.systemNumber)
      && payload.blockNumber == signing.systemNumber
  {
  }

  /**
   * The consumer chain is used for the signature and nothing else: two consumers on which the
   * signature step gives the same result yield the same sibling transaction or the same error.
   */
  lemma SiblingUsesConsumerOnlyToSign(
    relay: Chain, provider: Chain, consumer1: Chain, consumer2: Chain, env: Env, sdk: Sdk,
    did: string, call: Call, submitter: string, keyId: string, relationship: Relationship,
    includeWeb3Name: bool, version: JsNumber, signer: KeyPair)
    requires GenerateDipTxSignature(consumer1, env, sdk, did, call, submitter, relationship, signer)
      == GenerateDipTxSignature(consumer2, env, sdk, did, call, submitter, relationship, signer)
    ensures GenerateSiblingDipTx(relay, provider, consumer1, env, sdk, did, call, submitter, keyId,
              relationship, includeWeb3Name, version, signer)
         == GenerateSiblingDipTx(relay, provider, consumer2, env, sdk, did, call, submitter, keyId,
              relationship, includeWeb3Name, version, signer)
  {
  }

  /**
   * Parent versus sibling: with the relay chain in the consumer's place, the parent variant
   * succeeds exactly when the sibling variant does, fails with the same error otherwise, and
   * builds the same transaction except that it embeds the relay header at the anchor hash.
   */
  lemma ParentIsSiblingWithRelayHeader(
    relay: Chain, provider: Chain, env: Env, sdk: Sdk, did: string, call: Call,
    submitter: string, keyId: string, relationship: Relationship, includeWeb3Name: bool,
    version: JsNumber, signer: KeyPair)
    ensures
      var p := GenerateParentDipTx(relay, provider, env, sdk, did, call, submitter, keyId,
        relationship, includeWeb3Name, version, signer);
      var s := GenerateSiblingDipTx(relay, provider, relay, env, sdk, did, call, submitter, keyId,
        relationship, includeWeb3Name, version, signer);
      && (p.Ok? <==> s.Ok?)
      && (p.Err? ==> p.error == s.error)
      && (p.Ok? ==>
            var anchor := relay.blockHashes[s.value.proof.body.paraStateRoot.relayBlockHeight];
            && anchor in relay.headers
            && s.value.proof.body.header == None
            && p.value == s.value.(proof := s.value.proof.(body := s.value.proof.body.(header := Some(relay.headers[anchor])))))
  {
    var p := GenerateParentDipTx(relay, provider, env, sdk, did, call, submitter, keyId,
      relationship, includeWeb3Name, version, signer);
    if p.Ok? {
      DipTxAnchors(Parent, relay, provider, relay, env, sdk, did, call, submitter, keyId,
        relationship, includeWeb3Name, version, signer);
    }
  }

  /** The worked case: a provider finalized at height 500 has its commitment proof taken at 499. */
  lemma CommitmentProofOneBelowFinalized(
    topology: Topology, relay: Chain, provider: Chain, signing: Chain, env: Env, sdk: Sdk,
    did: string, call: Call, submitter: string, keyId: string, relationship: Relationship,
    includeWeb3Name: bool, version: JsNumber, signer: KeyPair)
    requires provider.finalizedHead in provider.headers && provider.headers[provider.finalizedHead].number == 500
    requires GenerateDipTx(topology, relay, provider, signing, env, sdk, did, call, submitter,
      keyId, relationship, includeWeb3Name, version, signer).Ok?
    ensures 499 in provider.blockHashes
    ensures GenerateDipTx(topology, relay, provider, signing, env, sdk, did, call, submitter,
      keyId, relationship, includeWeb3Name, version, signer).value.proof.body.dipIdentityCommitment
      == provider.readProof([IdentityCommitments(sdk.toChain(did), version)], provider.blockHashes[499])
  {
    DipTxAnchors(topology, relay, provider, signing, env, sdk, did, call, submitter, keyId,
      relationship, includeWeb3Name, version, signer);
  }

  /** The key id revealed for a key from `computeDidKeyId` is the hex of its hash, without "#". */
  lemma ComputedKeyIdRevealsHash(provider: Chain, sdk: Sdk, publicKey: Bytes, keyType: string)
    ensures Substring1(ComputeDidKeyId(provider, sdk, publicKey, keyType))
      == Hex.U8aToHex(sdk.blake2_256(provider.registry.encodeDidPublicKey(keyType, publicKey)))
  {
  }
}
