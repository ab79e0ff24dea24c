/** The incoming path: the entry guards of `decryptMessage` and how its callers (the context
    menu action and the prompt's Decrypt button) report the outcome. */
module DecryptFlow {
  import opened Js
  import opened Host
  import OpenPgp

  const NoPrivateKeyError := "No private key configured"

  /** What one call of `decryptMessage` does. */
  datatype DecryptOutcome =
    | NoPrivateKey                  // throws "No private key configured"
    | AwaitPassphrase               // opens the passphrase prompt and returns `undefined`
    | Decrypted(plaintext: string)
    | DecryptFailed(reason: string) // a library call threw

  function DecryptStep(lib: OpenPgp.Library, privateKey: string, passphrase: Option<string>, encryptedContent: string): (r: DecryptOutcome)
    // the private key is checked first, before the passphrase is consulted
    ensures r == NoPrivateKey <==> privateKey == ""
    // a present key without a passphrase always prompts
    ensures r == AwaitPassphrase <==> privateKey != "" && Falsy(passphrase)
    ensures r.Decrypted? ==>
      && lib.loaded && passphrase.Some?
      && lib.decrypt(encryptedContent, privateKey, passphrase.value) == Success(r.plaintext)
    ensures r.DecryptFailed? ==>
      && privateKey != "" && !Falsy(passphrase)
      && (!lib.loaded || lib.decrypt(encryptedContent, privateKey, passphrase.value).Failure?)
  {
    if privateKey == "" then NoPrivateKey
    else if Falsy(passphrase) then AwaitPassphrase
    else match OpenPgp.Decrypt(lib, encryptedContent, privateKey, passphrase.value)
      case Success(plaintext) => Decrypted(plaintext)
      case Failure(reason) => DecryptFailed(reason)
  }

  /** The two guards are decided without any library call: on those paths the outcome is the
      same whatever the library would do. */
  lemma GuardsPrecedeLibrary(lib1: OpenPgp.Library, lib2: OpenPgp.Library, privateKey: string,
                             passphrase: Option<string>, encryptedContent: string)
    requires privateKey == "" || Falsy(passphrase)
    ensures DecryptStep(lib1, privateKey, passphrase, encryptedContent)
         == DecryptStep(lib2, privateKey, passphrase, encryptedContent)
  {
  }

  /** The effects the callers of `decryptMessage` request for its outcome: the decrypted
      modal with its result, or the failure toast when it throws. */
  function Report(encryptedContent: string, outcome: DecryptOutcome): (effects: seq<Effect>)
    ensures outcome.Decrypted? ==> effects == [ShowDecryptedModal(Some(outcome.plaintext))]
    ensures outcome.NoPrivateKey? || outcome.DecryptFailed? ==> effects == [DecryptionFailedToast]
    // plaintext is displayed only after a successful decryption
    ensures !outcome.Decrypted? ==> forall e | e in effects :: !(e.ShowDecryptedModal? && e.content.Some?)
    // the prompt opens exactly on the passphrase path, and since `decryptMessage` then returns
    // `undefined` the caller also opens an empty "Decrypted Message" modal behind it
    ensures OpenPassphrasePrompt(encryptedContent) in effects <==> outcome.AwaitPassphrase?
    ensures outcome.AwaitPassphrase? ==> effects == [OpenPassphrasePrompt(encryptedContent), ShowDecryptedModal(None)]
  {
    match outcome
    case NoPrivateKey => [DecryptionFailedToast]
    case AwaitPassphrase => [OpenPassphrasePrompt(encryptedContent), ShowDecryptedModal(None)]
    case Decrypted(plaintext) => [ShowDecryptedModal(Some(plaintext))]
    case DecryptFailed(_) => [DecryptionFailedToast]
  }

  /** Submitting a non-empty passphrase at the prompt moves a keyed attempt from the prompt
      to the library: the outcome is then the library's decryption result. */
  lemma SubmittedPassphraseReachesLibrary(lib: OpenPgp.Library, privateKey: string, typed: string, encryptedContent: string)
    requires privateKey != "" && typed != ""
    ensures DecryptStep(lib, privateKey, None, encryptedContent) == AwaitPassphrase
    ensures lib.loaded ==>
      match lib.decrypt(encryptedContent, privateKey, typed)
      case Success(p) => DecryptStep(lib, privateKey, Some(typed), encryptedContent) == Decrypted(p)
      case Failure(e) => DecryptStep(lib, privateKey, Some(typed), encryptedContent) == DecryptFailed(e)
  {
  }
}
