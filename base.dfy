/** Values shared by every part of the model: bytes, the process environment and the errors the scripts throw. */
module Base {
  import opened Wrappers

  type Byte = b: int | 0 <= b < 256
  type Bytes = seq<Byte>

  /** `process.env`: a variable that is not set is a missing key (JavaScript `undefined`). */
  type Env = map<string, string>

  /** `process.env[name]`, with `undefined` as None. */
  function Lookup(env: Env, name: string): (v: Option<string>)
    ensures v.Some? <==> name in env
    ensures v.Some? ==> v.value == env[name]
  {
    if name in env then Some(env[name]) else None
  }

  /** `process.env[name] ?? fallback`: only an unset variable falls back; an empty value is kept. */
  function EnvOr(env: Env, name: string, fallback: string): (v: string)
    ensures name in env ==> v == env[name]
    ensures name !in env ==> v == fallback
  {
    if name in env then env[name] else fallback
  }

  /** The exceptions the modelled code throws, one constructor per distinct cause. */
  datatype Error =
    | MissingEnv(name: string)                  // "No <NAME> env variable specified." / "<NAME> not specified."
    // VERIFICATION_METHOD outside the three relationships. The model keeps the rejected value;
    // the thrown message names neither it nor the valid ones, since a Set prints as "[object Set]".
    | InvalidVerificationMethod(value: string)
    | CallDecodingFailed                        // ENCODED_CALL does not decode as a Call
    | MissingDidKey                             // the key for the requested relationship is not configured
    | NotDipCapable                             // the signing chain has no dipConsumer.dispatchAs
    | UnknownBlockNumber(height: int)           // chain_getBlockHash for a height the chain does not have
    | UnknownBlockHash(hash: Bytes)             // a header, state or proof requested at an unknown block
    | ProofGenerationFailed(reason: Bytes)      // dipProvider.generateProof returned Err, so `.asOk` fails
}
