/** The settings panel's "Generate New Key Pair (Curve25519)" handler, as a function of the
    session passphrase and the library. */
module Settings {
  import opened Js
  import opened Host
  import OpenPgp

  /** The options the handler passes to `generateKey`. */
  function Curve25519Options(passphrase: string): OpenPgp.KeyOptions
  {
    OpenPgp.KeyOptions("ecc", "curve25519", passphrase)
  }

  datatype GenerationOutcome =
    | NeedPassphrase              // refused before any library call
    | Generated(pair: OpenPgp.KeyPair)
    | GenerationFailed(reason: string)

  function Generation(lib: OpenPgp.Library, passphrase: Option<string>, entropy: nat): (r: GenerationOutcome)
    ensures r == NeedPassphrase <==> Falsy(passphrase)
    ensures r.Generated? ==>
      && lib.loaded && passphrase.Some? && passphrase.value != ""
      && lib.generateKey(Curve25519Options(passphrase.value), entropy) == Success(r.pair)
    ensures r.GenerationFailed? ==>
      !Falsy(passphrase) && (!lib.loaded || lib.generateKey(Curve25519Options(passphrase.value), entropy).Failure?)
  {
    if Falsy(passphrase) then NeedPassphrase
    else match OpenPgp.GenerateKey(lib, Curve25519Options(passphrase.value), entropy)
      case Success(pair) => Generated(pair)
      case Failure(reason) => GenerationFailed(reason)
  }

  function GenerationEffects(outcome: GenerationOutcome): (effects: seq<Effect>)
    ensures |effects| == 1
    ensures effects[0].ShowToast? && (effects[0].kind == SuccessToast <==> outcome.Generated?)
    ensures outcome == NeedPassphrase ==> effects == [PassphraseFirstToast]
    ensures outcome.GenerationFailed? ==> effects == [KeyGenerationFailedToast]
  {
    match outcome
    case NeedPassphrase => [PassphraseFirstToast]
    case Generated(_) => [KeyPairGeneratedToast]
    case GenerationFailed(_) => [KeyGenerationFailedToast]
  }
}
