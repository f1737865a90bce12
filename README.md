# kilt-did-utilities: DID configuration and DIP transaction assembly in Dafny

This project models the deterministic core of the KILT DID utility scripts:

- the configuration half of `src/utils.ts`: environment variable names and defaults, the
  mnemonic precedence and key type of each DID key role (authentication, attestation,
  delegation, new authentication), `parseVerificationMethod`, `readWsAddress` and the keypair
  signing callback;
- the DIP (decentralised identity provider) transaction builders of `src/utils.ts`:
  `generateDipTxSignature`, `generateSiblingDipTx`, `generateParentDipTx`, `computeDidKeyId`,
  `hexifyDipSignature` and `generatePolkadotJSLink`;
- `main` of `src/dip-sibling-sign.ts`: the required-configuration checks, the key loading with
  its `//Alice` fallback, the relationship-to-key switch, the `DIP_PROOF_VERSION` and
  `INCLUDE_WEB3NAME` defaults, and the arguments handed to `generateSiblingDipTx`.

The environment is a `map<string, string>`. Each chain (relay, provider, consumer) is an
immutable record: its para id, finalized head, headers by hash, block hashes by height,
`lastRelayChainBlockNumber` at each hash, whether it has `dipConsumer.dispatchAs`, its
`system.number` and `system.blockHash` storage, its `dipConsumer.identityEntries`, and
uninterpreted functions for read proofs, the `dipProvider.generateProof` runtime call and
SCALE encoding. Key derivation, signing, blake2-256 and `Kilt.Did.toChain` are uninterpreted
functions in an `Sdk` record. The two builders share one assembler, `Dip.GenerateDipTx`,
which takes a topology (`Sibling` or `Parent`) and follows the source's steps in order, so
the first failing step decides the error.

The JavaScript built-ins the scripts use on configuration text are modelled as well:
`parseInt` without a radix (leading white space, one sign, a `0x` prefix for base 16, the
longest digit prefix, `NaN` when there is no digit), number-to-string in a template literal,
`toLowerCase` on ASCII, `substring(1)`, and `u8aToHex` together with its inverse, a hex decoder.

Notes on the code:

- `generateParentDipTx` embeds the relay `header` (src/utils.ts:459-461);
  `generateSiblingDipTx` has no header field (src/utils.ts:331-348).
- `generateDipTxSignature` writes `(await identityEntries(did)) || createType(type, null)`
  (src/utils.ts:499-503). A storage query result is a codec object, which JavaScript always
  treats as truthy, so the fallback can only apply to a result that is itself falsy. Here the
  model departs from the code and states the evident intent: a DID without an entry contributes a null value of the
  configured identity-details type. For the default type `Option<u128>` both readings give
  the same `None`.
- The `generateProof` runtime call is made without a block hash (src/utils.ts:317), that is
  at the provider's best block, not at the finalized block the proofs are anchored to. The
  model treats it as a function of the request alone.
- The commitment proof is fetched at height `finalizedNumber - 1` with no guard
  (src/utils.ts:294-296). With a finalized head at height 0 the model's `getBlockHash(-1)`
  fails, so no transaction is built.

## Model

| member | source | states |
|---|---|---|
| Base.Lookup | src/utils.ts:225 | `process.env[name]`: present exactly when the variable is set, with its value |
| Base.EnvOr | src/utils.ts:497-498 | `process.env[name] ?? fallback`: the value whenever the variable is set, even when empty; the fallback only when it is unset |
| Config.ReadWsAddress | src/utils.ts:84-93 | WS_ADDRESS when set, otherwise "wss://spiritnet.kilt.io" |
| Config.ReadMnemonic | src/utils.ts:95-111 | the role's own mnemonic wins; otherwise DID_MNEMONIC followed by the role's derivation path when both are set; no mnemonic exactly when neither route is available |
| Config.RoleVariablesDistinct | src/utils.ts:22-49 | no two roles share a mnemonic or derivation-path variable, and none of them is DID_MNEMONIC |
| Config.ExplicitMnemonicWins | src/utils.ts:97-98 | once a role's mnemonic is set, changing DID_MNEMONIC or the derivation path leaves the resolved mnemonic unchanged |
| Config.MnemonicOnlyReadsItsRole | src/utils.ts:126-204 | setting, changing or removing another role's mnemonic, or its derivation path, each on its own and to any value, never changes this role's mnemonic |
| Config.KeyType | src/utils.ts:114-118 | the role's key type variable when set and non-empty, otherwise "sr25519"; never empty |
| Config.GenerateKeypair | src/utils.ts:120 | the keypair carries the seed and key type it was generated from |
| Config.GenerateKey | src/utils.ts:112-124 | no key exactly when the role has no mnemonic; otherwise the keypair of that mnemonic with the role's key type (the new authentication key shares the authentication default, src/utils.ts:205-217) |
| Config.ParseVerificationMethod | src/utils.ts:219-238 | fails when VERIFICATION_METHOD is unset; accepts exactly the three relationship names and returns the one named; rejects anything else with its value |
| Config.ParseVerificationMethodRoundTrip | src/utils.ts:229-232 | every relationship written by its own name parses back to itself |
| Config.SignWith | src/utils.ts:75-82 | the signing callback signs exactly the given data and tags it with the keypair's own type |
| JsText.TrimStart | src/dip-sibling-sign.ts:79 | the result is a suffix of the input that does not start with white space, and everything removed was white space |
| JsText.LeadingDigits | src/dip-sibling-sign.ts:79 | the longest prefix of digits of the radix: every taken character is a digit with that value, and the next one is not |
| JsText.LeadingDigitsAppend | src/dip-sibling-sign.ts:79 | on a numeral made of decimal digits, one more digit at the end is one more digit read, with its value |
| JsText.DecimalDigitsValue | src/dip-sibling-sign.ts:79 | the digits read from a printed natural number are all of its characters, and their value is the number |
| JsText.ParseIntOfDecimal | src/dip-sibling-sign.ts:79 | `parseInt` of the decimal text of any integer gives that integer back |
| JsText.ParseInt | src/dip-sibling-sign.ts:79 | NaN exactly when, after the white space, one optional sign and a hex prefix, no digit of the radix follows; a negative result only after a minus sign |
| JsText.ParseSigned | src/dip-sibling-sign.ts:79 | after the white space: NaN exactly when the digits after the sign give NaN; negative only after a minus sign |
| JsText.Negate | src/dip-sibling-sign.ts:79 | a minus sign: NaN stays NaN, a number changes sign |
| JsText.ParseDigits | src/dip-sibling-sign.ts:79 | after the sign: NaN exactly when the first character (after a hex prefix) is not a digit of the radix; otherwise a non-negative number |
| JsText.ParseIntDecimalPrefix | src/dip-sibling-sign.ts:79 | after white space, text starting with a decimal digit and no "0x"/"0X" prefix (so also "012") is read in base 10 up to its first non-digit |
| JsText.ParseIntHexPrefix | src/dip-sibling-sign.ts:79 | after white space, "0x" or "0X" followed by a hex digit is read in base 16 |
| JsText.ParseIntSkipsSpaceAndTail | src/dip-sibling-sign.ts:79 | `parseInt(" 12abc")` is 12 |
| JsText.ParseIntReadsHex | src/dip-sibling-sign.ts:79 | `parseInt("0x1F")` is 31 |
| JsText.IntToDecimal | src/utils.ts:331 | `${n}` of an integer: a minus sign exactly for a negative number, followed by decimal digits |
| JsText.NumberToString | src/utils.ts:331 | `${x}`: "NaN" for NaN; for a number, a minus sign exactly when it is negative, followed by decimal digits |
| JsText.NumberToStringInjective | src/utils.ts:331 | two numbers print alike in a template literal only when they are equal |
| JsText.ToLowerAscii | src/dip-sibling-sign.ts:97 | same length; each upper-case ASCII letter becomes its lower-case letter and every other character is kept |
| JsText.Substring1 | src/utils.ts:320 | `substring(1)`: the text without its first character, empty for empty text |
| Hex.HexDigit | src/utils.ts:555 | the digit character reads back, in base 16, as the digit; digits below ten print as '0'-'9' and the others as lower-case 'a'-'f' |
| Hex.U8aToHex | src/utils.ts:540 | "0x" followed by two characters per byte |
| Hex.U8aToHexRoundTrip | src/utils.ts:540 | decoding the printed hex gives back the bytes |
| Hex.U8aToHexInjective | src/utils.ts:555 | different byte strings never print alike |
| Dip.StoredBlockHash | src/utils.ts:495 | `system.blockHash(n)`: the stored hash, or the all-zero default for an unknown height |
| Dip.GetHeader | src/utils.ts:266-268 | succeeds exactly for a known hash, with its header |
| Dip.GetBlockHash | src/utils.ts:278-280 | succeeds exactly for a known non-negative height, with its hash; fails with that height otherwise |
| Dip.RelayParentAt | src/utils.ts:275-277 | the `lastRelayChainBlockNumber` stored in the state at the given hash |
| Dip.GetReadProof | src/utils.ts:288-291 | the chain's read proof for exactly those keys at exactly that block, when the block is known |
| Dip.GenerateProof | src/utils.ts:314-325 | the runtime call's proof when it succeeds; its error otherwise |
| Dip.SigningPayloadFor | src/utils.ts:497-522 | the payload is (call, identity details, submitter, current block number, hash of block 0); a DID without an entry contributes a null value of the configured type; the three type names fall back to their defaults only when unset |
| Dip.TupleType | src/utils.ts:519 | the tuple type "(Call, …, Hash)" with the identity-details, account-id and block-number types in the second, third and fourth places |
| Dip.GenerateDipTxSignature | src/utils.ts:481-535 | fails exactly when the chain has no `dipConsumer.dispatchAs`, whatever else it holds; otherwise the signer's signature over the encoded payload, tagged with the signer's key type, with the payload's block number |
| Dip.VersionTag | src/utils.ts:331 | the tag is "V" followed by the printed version |
| Dip.VersionTagInjective | src/utils.ts:331 | two tags are equal exactly when their versions are |
| Dip.VersionTagParsesBack | src/utils.ts:331 | the tag of an integer version, without its "V", reads back with `parseInt` as that version |
| Dip.ProofRequestFor | src/utils.ts:317-324 | the request names the DID's chain identifier, the version, the key id without its first character as the only key, no accounts, and the web3-name flag |
| Dip.RelayHeaderFor | src/utils.ts:407 | a sibling embeds no header; a parent embeds the relay header at the anchor hash and fails when it is unknown |
| Dip.GenerateDipTx | src/utils.ts:253-352 | a chain without `dispatchAs` fails before anything is read; a built transaction dispatches the given call for the DID's identifier, is tagged with its version, and has a header exactly for the parent topology |
| Dip.GenerateSiblingDipTx | src/utils.ts:240-353 | signs against the consumer, fails when the consumer is not DIP-capable, and embeds no header |
| Dip.GenerateParentDipTx | src/utils.ts:355-479 | signs against the relay chain, fails when it is not DIP-capable, and embeds a header |
| Dip.ComputeDidKeyId | src/utils.ts:545-556 | "#" followed by hex text that decodes to the blake2-256 hash of the encoded public key |
| Dip.HexifyDipSignature | src/utils.ts:537-543 | keeps the key type; the hex text decodes to the signature bytes |
| Dip.GeneratePolkadotJSLink | src/utils.ts:558-563 | the apps URL prefix, then the endpoint, then the decode path, then the encoded extrinsic |
| DipProperties.DipTxSucceeds | src/utils.ts:253-352 | the assembler (and so `generateSiblingDipTx` and `generateParentDipTx`) builds a transaction exactly when the signing chain has `dispatchAs`, the provider's finalized head and its relay parent are known, the relay block at that height is known, the finalized height is at least 1 with a known provider block below it, and `generateProof` returns a proof |
| DipProperties.DipTxAnchors | src/utils.ts:264-308 | the relay height is read at the provider's finalized head and is the envelope's height; the relay proof of `paras.heads(paraId)` is taken at that height's hash; the commitment proof is taken at the provider block one below the finalized one, so a finalized head at height 0 never yields a transaction |
| DipProperties.DipTxVersionAndKeys | src/utils.ts:300-331 | one version in the commitment storage key, the proof request and the tag, whose other versions give other tags; the only revealed key is the key id without its first character, and no account is revealed |
| DipProperties.DipTxSignature | src/utils.ts:253-260 | the envelope carries the signer's signature over the signing chain's payload, with its key type and that chain's block number |
| DipProperties.SiblingUsesConsumerOnlyToSign | src/utils.ts:253-260 | two consumers whose signature steps agree give the same sibling result |
| DipProperties.ParentIsSiblingWithRelayHeader | src/utils.ts:451-476 | with the relay chain as consumer, parent and sibling succeed together, fail with the same error, and differ only by the relay header at the anchor hash |
| DipProperties.CommitmentProofOneBelowFinalized | src/utils.ts:293-296 | a provider finalized at height 500 has its commitment proof taken at block 499 |
| DipProperties.ComputedKeyIdRevealsHash | src/utils.ts:555 | the revealed key of a computed key id is the hex of the key's hash |
| SiblingSign.LoadKeys | src/dip-sibling-sign.ts:41-45 | the authentication key, or //Alice when it has no mnemonic; the attestation and delegation keys as configured |
| SiblingSign.SelectKey | src/dip-sibling-sign.ts:59-69 | the key of the requested relationship and no other role's key |
| SiblingSign.OnlyAssertionOrDelegationCanBeMissing | src/dip-sibling-sign.ts:41-43 | selection never fails for authentication; it fails only when the requested assertion or delegation key has no mnemonic |
| SiblingSign.DipProofVersion | src/dip-sibling-sign.ts:77-83 | `parseInt` of DIP_PROOF_VERSION when set, otherwise 0 |
| SiblingSign.DipProofVersionOfDecimal | src/dip-sibling-sign.ts:79 | a version written in decimal is read as that version |
| SiblingSign.IncludeWeb3Name | src/dip-sibling-sign.ts:96-98 | true exactly when INCLUDE_WEB3NAME spells "true" in any mix of cases; false when unset |
| SiblingSign.LowerCaseIsTrue | src/dip-sibling-sign.ts:97 | a text lower-cases to "true" exactly when it is four letters spelling "true" in either case |
| SiblingSign.Main | src/dip-sibling-sign.ts:10-126 | a missing relay, provider or consumer address, submitter or DID (in that order) fails with that variable's error before any connection; a call that does not decode, and then a missing or invalid VERIFICATION_METHOD, fails with its own error after connecting only the consumer; a fully configured run whose selected key is absent fails with the missing-key error after connecting only the consumer, and that error never comes with any other connection; a successful run connected consumer, provider and relay, and prints `signedExtrinsic.toHex()`, the "0x" hex of the consumer's encoding of exactly the built transaction, with its PolkadotJS link for the consumer endpoint |
| SiblingSign.MainHandsOff | src/dip-sibling-sign.ts:85-111 | a fully configured run whose selected key exists connects consumer, provider and relay, and succeeds exactly when `generateSiblingDipTx` of the forwarded arguments does: with its error when it fails, with its transaction when it succeeds |
| SiblingSign.MissingKeyStopsBeforeProvider | src/dip-sibling-sign.ts:70-74 | a missing key connects only to the consumer, and happens only for a configured assertionMethod or capabilityDelegation whose key has no mnemonic |
| SiblingSign.ForwardedArguments | src/dip-sibling-sign.ts:90-111 | a successful run's transaction is exactly `generateSiblingDipTx` of the DID, the decoded call, the submitter, the parsed relationship, the key selected for it, that key's computed id, the configured web3-name flag and version; it reveals the hash of that key, dispatches that call for that DID, and carries that key's signature over the consumer's payload and no header |

## Left out

- Chain access (WebSocket connections, `getFinalizedHead`, `getHeader`, `getBlockHash`, `getReadProof`, the `generateProof` runtime call) is modelled as reads of immutable chain records; connection failures, timeouts and chain changes between reads are not modelled.
- Trie proof contents and their verification are not modelled; a read proof is an uninterpreted function of the keys and the block hash.
- SCALE encoding (`createType(...).toU8a()`, `toHex()`), call decoding, blake2-256, keypair derivation, signing and `Kilt.Did.toChain` are uninterpreted functions; errors they would throw (an invalid DID URI, an unknown type name) are not modelled, except that call decoding may fail.
- Logging, `process.exit`, dotenv loading, `cryptoWaitReady` and `providerApi.disconnect()` have no behaviour to state and are left out.
- SiblingSign.DipProofVersion: numbers are unbounded integers, so JavaScript's loss of precision above 2^53 and exponent formatting of large numbers in `${version}` are not modelled; `parseInt("-0")` is read as 0.
- JsText.ToLowerAscii: lower-cases ASCII letters only; `toLowerCase` on other Unicode letters is not modelled.
- Dip.SigningPayloadFor: models the intended fallback for a missing identity entry rather than JavaScript truthiness of a codec object (see the note above).
- Dip.GenerateDipTxSignature: the signer is always the keypair callback of `getKeypairTxSigningCallback`, which is what the scripts pass; a general `sign` callback that returns its own key type (src/utils.ts:524-532) is not modelled.
- Dip.GenerateDipTx: `dispatchAs(...)` (src/utils.ts:328-350) throws when the consumer runtime has no `V${version}` variant of the proof (for example `VNaN`, or a version it does not know); the model always builds the envelope and does not model that error.
- DipProperties.ParentIsSiblingWithRelayHeader: signing is modelled as a function of the key and the data (`Sdk.sign`), but real sr25519 signatures, the default key type (src/utils.ts:65), draw a random nonce, so two signings of the same payload give different bytes; "the same signature" here, and in DipProperties.SiblingUsesConsumerOnlyToSign, means a signature by the same key over the same payload.
- Dip.GenerateProof: the runtime call is modelled as a function of the request alone, not of the best block it runs at.
- The generated extrinsic is returned, not submitted; nothing in the scripts submits it either.
- src/dip-parent-sign.ts and src/dip-sign.ts are not part of this model: the first passes 9 arguments to the 10-parameter `generateParentDipTx` (src/dip-parent-sign.ts:83-93), so its signer lands in `version`; the second calls `generateDipTxSignature`, which src/utils.ts does not export.
- The other scripts (DID creation, key setting, service endpoints, web3 names, account linking, call and transaction signing) are one-call SDK wrappers, several of them calling helpers that src/utils.ts no longer defines; they are not part of this model.
- Async ordering is represented only by the sequential order of the steps in `Dip.GenerateDipTx` and `SiblingSign.Main`.
