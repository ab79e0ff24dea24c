/** The OpenPGP library (`window.openpgp`) as an abstract collaborator. Every operation may
    fail; nothing is assumed about what a successful call returns. */
module OpenPgp {
  import opened Js

  /** The options object given to `generateKey`. */
  datatype KeyOptions = KeyOptions(keyType: string, curve: string, passphrase: string)

  /** Armored key material returned by `generateKey`. */
  datatype KeyPair = KeyPair(privateKey: string, publicKey: string)

  /** `loaded` says whether `window.openpgp` is defined. The three operations stand for the
      library's call sequences: `encrypt(text, armoredPublicKey)` for `readKey`, `createMessage`
      and `encrypt`; `decrypt(armoredMessage, armoredPrivateKey, passphrase)` for
      `readPrivateKey`, `decryptKey`, `readMessage` and `decrypt`; `generateKey(options, entropy)`
      for `generateKey`, where `entropy` stands for the randomness of key generation. */
  datatype Library = Library(
    loaded: bool,
    encrypt: (string, string) -> Result<string, string>,
    decrypt: (string, string, string) -> Result<string, string>,
    generateKey: (KeyOptions, nat) -> Result<KeyPair, string>)

  /** What an access to a member of an undefined `window.openpgp` throws. */
  const NotLoadedError := "window.openpgp is undefined"

  function Encrypt(lib: Library, text: string, armoredKey: string): Result<string, string>
  {
    if lib.loaded then lib.encrypt(text, armoredKey) else Failure(NotLoadedError)
  }

  function Decrypt(lib: Library, armoredMessage: string, armoredKey: string, passphrase: string): Result<string, string>
  {
    if lib.loaded then lib.decrypt(armoredMessage, armoredKey, passphrase) else Failure(NotLoadedError)
  }

  function GenerateKey(lib: Library, options: KeyOptions, entropy: nat): Result<KeyPair, string>
  {
    if lib.loaded then lib.generateKey(options, entropy) else Failure(NotLoadedError)
  }
}
