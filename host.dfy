/** What the plugin asks the host client to show. The rendering itself is not modelled;
    a handler returns the list of effects it requests, in order. */
module Host {
  import opened Js

  datatype ToastKind = InfoToast | ErrorToast | SuccessToast

  datatype Effect =
    | ShowToast(text: string, kind: ToastKind)
      /** the "Enter PGP Passphrase" modal, bound to the armored text it will decrypt */
    | OpenPassphrasePrompt(encryptedContent: string)
    | ClosePassphrasePrompt
      /** the "Decrypted Message" modal; None is JavaScript `undefined` */
    | ShowDecryptedModal(content: Option<string>)

  const EncryptionFailedToast := ShowToast("Encryption failed! Sent as plaintext", ErrorToast)
  const DecryptionFailedToast := ShowToast("Decryption failed", ErrorToast)
  const PassphraseFirstToast := ShowToast("Enter passphrase first by decrypting a message", ErrorToast)
  const KeyPairGeneratedToast := ShowToast("New key pair generated!", SuccessToast)
  const KeyGenerationFailedToast := ShowToast("Key generation failed", ErrorToast)

  /** The toast shown after the composer toggle, for the new state. */
  function ToggleToast(enabled: bool): Effect
  {
    ShowToast(if enabled then "PGP Enabled" else "PGP Disabled", InfoToast)
  }
}
