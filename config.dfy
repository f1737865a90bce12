/**
 * The configuration half of src/utils.ts: environment variable names, defaults, the mnemonic
 * and key-type resolution for each DID key role, the relationship parser and the keypair
 * signing callback. Everything is read from an explicit environment map.
 */
module Config {
  import opened Wrappers
  import opened Base

  // Environment variable names (`envNames`).
  const WsAddressVar := "WS_ADDRESS"
  const SubmitterAddressVar := "SUBMITTER_ADDRESS"
  const DidUriVar := "DID_URI"
  const DidMnemonicVar := "DID_MNEMONIC"
  const AuthMnemonicVar := "AUTH_MNEMONIC"
  const AuthDerivationPathVar := "AUTH_DERIVATION_PATH"
  const AuthKeyTypeVar := "AUTH_KEY_TYPE"
  const NewAuthMnemonicVar := "NEW_AUTH_MNEMONIC"
  const NewAuthDerivationPathVar := "NEW_AUTH_DERIVATION_PATH"
  const NewAuthKeyTypeVar := "NEW_AUTH_KEY_TYPE"
  const AttMnemonicVar := "ATT_MNEMONIC"
  const AttDerivationPathVar := "ATT_DERIVATION_PATH"
  const AttKeyTypeVar := "ATT_KEY_TYPE"
  const DelMnemonicVar := "DEL_MNEMONIC"
  const DelDerivationPathVar := "DEL_DERIVATION_PATH"
  const DelKeyTypeVar := "DEL_KEY_TYPE"
  const EncodedCallVar := "ENCODED_CALL"
  const ConsumerWsAddressVar := "CONSUMER_WS_ADDRESS"
  const ProviderWsAddressVar := "PROVIDER_WS_ADDRESS"
  const RelayWsAddressVar := "RELAY_WS_ADDRESS"
  const VerificationMethodVar := "VERIFICATION_METHOD"
  const IdentityDetailsTypeVar := "IDENTITY_DETAILS"
  const AccountIdTypeVar := "ACCOUNT_ID"
  const BlockNumberTypeVar := "BLOCK_NUMBER"
  const IncludeWeb3NameVar := "INCLUDE_WEB3NAME"
  const DipProofVersionVar := "DIP_PROOF_VERSION"

  // `defaults`.
  const DefaultWsAddress := "wss://spiritnet.kilt.io"
  const DefaultAuthKeyType := "sr25519"
  const DefaultAttKeyType := "sr25519"
  const DefaultDelKeyType := "sr25519"
  const DefaultIdentityDetailsType := "Option<u128>"
  const DefaultAccountIdType := "AccountId32"
  const DefaultBlockNumberType := "u64"
  const DefaultIncludeWeb3Name := false
  const DefaultDipProofVersion := 0

  /** `readWsAddress`: WS_ADDRESS, or the Spiritnet endpoint when it is unset. */
  function ReadWsAddress(env: Env): (address: string)
    ensures WsAddressVar in env ==> address == env[WsAddressVar]
    ensures WsAddressVar !in env ==> address == "wss://spiritnet.kilt.io"
  {
    if WsAddressVar in env then env[WsAddressVar] else DefaultWsAddress
  }

  /** The four DID key roles that have their own mnemonic, derivation path and key type. */
  datatype Role = AuthKey | AttestationKey | DelegationKey | NewAuthKey

  function MnemonicVar(role: Role): string {
    match role
    case AuthKey => AuthMnemonicVar
    case AttestationKey => AttMnemonicVar
    case DelegationKey => DelMnemonicVar
    case NewAuthKey => NewAuthMnemonicVar
  }

  function DerivationPathVar(role: Role): string {
    match role
    case AuthKey => AuthDerivationPathVar
    case AttestationKey => AttDerivationPathVar
    case DelegationKey => DelDerivationPathVar
    case NewAuthKey => NewAuthDerivationPathVar
  }

  function KeyTypeVar(role: Role): string {
    match role
    case AuthKey => AuthKeyTypeVar
    case AttestationKey => AttKeyTypeVar
    case DelegationKey => DelKeyTypeVar
    case NewAuthKey => NewAuthKeyTypeVar
  }

  /** The default key type of a role; the new authentication key shares the authentication default. */
  function DefaultKeyType(role: Role): string {
    match role
    case AuthKey => DefaultAuthKeyType
    case AttestationKey => DefaultAttKeyType
    case DelegationKey => DefaultDelKeyType
    case NewAuthKey => DefaultAuthKeyType
  }

  /**
   * `read*KeyMnemonic`: the role's own mnemonic wins; otherwise DID_MNEMONIC followed by the
   * role's derivation path when both are set; otherwise there is no mnemonic.
   */
  function ReadMnemonic(env: Env, role: Role): (m: Option<string>)
    ensures MnemonicVar(role) in env ==> m == Some(env[MnemonicVar(role)])
    ensures MnemonicVar(role) !in env && DidMnemonicVar in env && DerivationPathVar(role) in env ==>
      m == Some(env[DidMnemonicVar] + env[DerivationPathVar(role)])
    ensures m.None? <==>
      MnemonicVar(role) !in env && (DidMnemonicVar !in env || DerivationPathVar(role) !in env)
  {
    if MnemonicVar(role) in env then
      Some(env[MnemonicVar(role)])
    else if DidMnemonicVar in env && DerivationPathVar(role) in env then
      Some(env[DidMnemonicVar] + env[DerivationPathVar(role)])
    else
      None
  }

  /** No two roles, and no role and DID_MNEMONIC, share a variable name. */
  lemma RoleVariablesDistinct(role: Role)
    ensures MnemonicVar(role) != DidMnemonicVar && DerivationPathVar(role) != DidMnemonicVar
    ensures MnemonicVar(role) != DerivationPathVar(role)
    ensures forall other: Role :: other != role ==>
      MnemonicVar(other) != MnemonicVar(role) && DerivationPathVar(other) != DerivationPathVar(role)
  {
  }

  /**
   * Once a role's own mnemonic is set, DID_MNEMONIC and the derivation path no longer matter:
   * setting or changing them leaves the resolved mnemonic as it was.
   */
  lemma ExplicitMnemonicWins(env: Env, role: Role, base: string, path: string)
    requires MnemonicVar(role) in env
    ensures ReadMnemonic(env[DidMnemonicVar := base][DerivationPathVar(role) := path], role)
      == Some(env[MnemonicVar(role)])
  {
    RoleVariablesDistinct(role);
  }

  /**
   * One role's configuration never changes another role's mnemonic: setting, changing or
   * removing the other role's mnemonic or its derivation path, each on its own.
   */
  lemma MnemonicOnlyReadsItsRole(env: Env, role: Role, other: Role, mnemonic: string, path: string)
    requires other != role
    ensures ReadMnemonic(env[MnemonicVar(other) := mnemonic], role) == ReadMnemonic(env, role)
    ensures ReadMnemonic(env[DerivationPathVar(other) := path], role) == ReadMnemonic(env, role)
    ensures ReadMnemonic(env - {MnemonicVar(other)}, role) == ReadMnemonic(env, role)
    ensures ReadMnemonic(env - {DerivationPathVar(other)}, role) == ReadMnemonic(env, role)
  {
    RoleVariablesDistinct(role);
    RoleVariablesDistinct(other);
  }

  /**
   * The key type of `generate*Key`: `(process.env[<ROLE>_KEY_TYPE] as ...) || default`, so an
   * unset or empty value falls back to the role's default.
   */
  function KeyType(env: Env, role: Role): (t: string)
    ensures t != ""
    ensures KeyTypeVar(role) in env && env[KeyTypeVar(role)] != "" ==> t == env[KeyTypeVar(role)]
    ensures KeyTypeVar(role) !in env || env[KeyTypeVar(role)] == "" ==> t == "sr25519"
  {
    if KeyTypeVar(role) in env && env[KeyTypeVar(role)] != "" then env[KeyTypeVar(role)]
    else DefaultKeyType(role)
  }

  /** A keypair as `Kilt.generateKeypair` returns it: seed, key type and public key. */
  datatype KeyPair = KeyPair(seed: string, keyType: string, publicKey: Bytes)

  /**
   * The library functions the core calls but cannot see: keypair derivation and signing from
   * the SDK, blake2-256 from util-crypto, and `Kilt.Did.toChain` (DID URI to chain identifier).
   */
  datatype Sdk = Sdk(
    publicKeyOf: (string, string) -> Bytes,
    sign: (KeyPair, Bytes) -> Bytes,
    blake2_256: Bytes -> Bytes,
    toChain: string -> string)

  /** `Kilt.generateKeypair({ seed, type })`. */
  function GenerateKeypair(sdk: Sdk, seed: string, keyType: string): (k: KeyPair)
    ensures k.seed == seed && k.keyType == keyType
  {
    KeyPair(seed, keyType, sdk.publicKeyOf(seed, keyType))
  }

  /**
   * `generate*Key`: no key exactly when the role has no mnemonic; otherwise the keypair
   * generated from that mnemonic with the role's key type.
   */
  function GenerateKey(env: Env, sdk: Sdk, role: Role): (k: Option<KeyPair>)
    ensures k.None? <==> ReadMnemonic(env, role).None?
    ensures k.Some? ==>
      && k.value.seed == ReadMnemonic(env, role).value
      && k.value.keyType == KeyType(env, role)
      && k.value.publicKey == sdk.publicKeyOf(k.value.seed, k.value.keyType)
  {
    match ReadMnemonic(env, role)
    case None => None
    case Some(mnemonic) => Some(GenerateKeypair(sdk, mnemonic, KeyType(env, role)))
  }

  /** The three signature verification relationships of a DID. */
  datatype Relationship = Authentication | AssertionMethod | CapabilityDelegation

  function RelationshipName(r: Relationship): string {
    match r
    case Authentication => "authentication"
    case AssertionMethod => "assertionMethod"
    case CapabilityDelegation => "capabilityDelegation"
  }

  /**
   * `parseVerificationMethod`: fails when VERIFICATION_METHOD is unset; otherwise accepts
   * exactly the three relationship names, returning the one named, and fails on anything else.
   */
  function ParseVerificationMethod(env: Env): (r: Result<Relationship, Error>)
    ensures VerificationMethodVar !in env ==> r == Err(MissingEnv(VerificationMethodVar))
    ensures VerificationMethodVar in env ==>
      (r.Ok? <==> env[VerificationMethodVar] in {"authentication", "assertionMethod", "capabilityDelegation"})
    ensures r.Ok? ==> RelationshipName(r.value) == env[VerificationMethodVar]
    ensures VerificationMethodVar in env && r.Err? ==>
      r.error == InvalidVerificationMethod(env[VerificationMethodVar])
  {
    if VerificationMethodVar !in env then Err(MissingEnv(VerificationMethodVar))
    else
      var value := env[VerificationMethodVar];
      if value == "authentication" then Ok(Authentication)
      else if value == "assertionMethod" then Ok(AssertionMethod)
      else if value == "capabilityDelegation" then Ok(CapabilityDelegation)
      else Err(InvalidVerificationMethod(value))
  }

  /** Every relationship is accepted when written by its own name, and parsed back to itself. */
  lemma ParseVerificationMethodRoundTrip(env: Env, r: Relationship)
    ensures ParseVerificationMethod(env[VerificationMethodVar := RelationshipName(r)]) == Ok(r)
  {
  }

  /** What the signing callback hands back: signature bytes tagged with a key type. */
  datatype SignResponse = SignResponse(signature: Bytes, keyType: string)

  /**
   * `getKeypairTxSigningCallback(keypair)` applied to `data`: the keypair's signature over
   * exactly that data, tagged with the keypair's own type.
   */
  function SignWith(sdk: Sdk, keypair: KeyPair, data: Bytes): (s: SignResponse)
    ensures s.keyType == keypair.keyType
    ensures s.signature == sdk.sign(keypair, data)
  {
    SignResponse(sdk.sign(keypair, data), keypair.keyType)
  }
}
